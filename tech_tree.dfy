/**
 * The tech-tree graph of the web front end (frontend/v2/src/lib/tracks-parser.ts):
 * `getLayoutedElements` turns the curriculum into React Flow nodes (one per
 * subject) and edges (every subject of a step linked from every subject of
 * the step before it in the same track). Positions come from the dagre
 * layout engine and are not modelled.
 */
module TechTree {
  import opened Wrappers
  import opened Curriculum
  import opened Text
  import opened Sorting

  /** `SkillStatus` of src/types/techtree.ts. */
  datatype Status = Locked | Available | InProgress | Completed | Mastered

  /** The mock status: the first two steps of the first track are mastered, its third is available. */
  function GetStatus(trackIndex: nat, stepIndex: nat): Status {
    if trackIndex == 0 && stepIndex <= 1 then Mastered
    else if trackIndex == 0 && stepIndex == 2 then Available
    else Locked
  }

  /** Only the first three steps of the first track are open; every other node is locked. */
  lemma OnlyFirstTrackIsOpen(trackIndex: nat, stepIndex: nat)
    ensures GetStatus(trackIndex, stepIndex) != Locked <==> trackIndex == 0 && stepIndex <= 2
    ensures GetStatus(trackIndex, stepIndex) in {Locked, Available, Mastered}
    ensures GetStatus(trackIndex, stepIndex) == Mastered <==> trackIndex == 0 && stepIndex <= 1
    ensures GetStatus(trackIndex, stepIndex) == Available <==> trackIndex == 0 && stepIndex == 2
  {
  }

  /** Three stars for a mastered node, one for an available one, none otherwise. */
  function StarCount(s: Status): (n: nat)
    ensures n <= 3
    ensures n == 0 <==> s !in {Mastered, Available}
    ensures s == Mastered ==> n == 3
    ensures s == Available ==> n == 1
  {
    if s == Mastered then 3 else if s == Available then 1 else 0
  }

  /** An edge is animated when its target is available or mastered. */
  predicate Lit(s: Status) {
    s == Available || s == Mastered
  }

  /** The category shown on a node, from the first "Track N" the track's name contains. */
  function GetCategory(trackName: string): string {
    if Contains(trackName, "Track 0") then "Common"
    else if Contains(trackName, "Track 1") then "Engineer"
    else if Contains(trackName, "Track 2") then "Modeler"
    else if Contains(trackName, "Track 3") then "LLM App"
    else if Contains(trackName, "Track 4") then "Data"
    else if Contains(trackName, "Track 5") then "MLOps"
    else "Other"
  }

  /** The containment test does not stop at a digit boundary: a track named "Track 10" is an engineer track. */
  lemma TrackTenIsEngineer()
    ensures GetCategory("Track 10") == "Engineer"
  {
    assert OccursAt("Track 10", "Track 1", 0);
    assert !OccursAt("Track 10", "Track 0", 0) by {
      assert "Track 10"[6] != "Track 0"[6];
    }
    assert !OccursAt("Track 10", "Track 0", 1) by {
      assert "Track 10"[1] != "Track 0"[0];
    }
  }

  /** The categories of tracks 0 to 5, in order. */
  const Categories := ["Common", "Engineer", "Modeler", "LLM App", "Data", "MLOps"]

  /** "Track d". */
  function TrackLabel(d: nat): string
    requires d < 10
  {
    "Track " + [Digit(d)]
  }

  /**
   * The category is that of the first label "Track 0" … "Track 5" the
   * name contains, and "Other" exactly when it contains none of them.
   */
  lemma CategoryOfFirstLabel(trackName: string)
    ensures GetCategory(trackName) == "Other" <==> forall d | 0 <= d < 6 :: !Contains(trackName, TrackLabel(d))
    ensures forall d | 0 <= d < 6 && Contains(trackName, TrackLabel(d)) ::
      (forall e | 0 <= e < d :: !Contains(trackName, TrackLabel(e))) ==> GetCategory(trackName) == Categories[d]
  {
    assert TrackLabel(0) == "Track 0" && TrackLabel(1) == "Track 1" && TrackLabel(2) == "Track 2";
    assert TrackLabel(3) == "Track 3" && TrackLabel(4) == "Track 4" && TrackLabel(5) == "Track 5";
  }

  // ---------------------------------------------------------------
  // Decimal numerals, for node identifiers
  // ---------------------------------------------------------------

  function Digit(d: nat): char
    requires d < 10
  {
    "0123456789"[d]
  }

  function DigitValue(c: char): nat {
    if '0' <= c <= '9' then (c - '0') as nat else 0
  }

  /** JavaScript's decimal rendering of a non-negative integer. */
  function NatToString(n: nat): string
    decreases n
  {
    if n < 10 then [Digit(n)] else NatToString(n / 10) + [Digit(n % 10)]
  }

  function ParseNat(s: string): nat {
    if s == [] then 0 else ParseNat(s[..|s| - 1]) * 10 + DigitValue(s[|s| - 1])
  }

  lemma {:induction false} ParseNatToString(n: nat)
    ensures ParseNat(NatToString(n)) == n
    decreases n
  {
    if n >= 10 {
      ParseNatToString(n / 10);
      var s := NatToString(n);
      assert s[..|s| - 1] == NatToString(n / 10);
    }
  }

  /** The identifier of the k-th node created. */
  function NodeId(k: nat): string {
    "node-" + NatToString(k)
  }

  /** Node identifiers never collide. */
  lemma NodeIdInjective(i: nat, j: nat)
    requires NodeId(i) == NodeId(j)
    ensures i == j
  {
    assert NatToString(i) == NodeId(i)[5..];
    ParseNatToString(i);
    ParseNatToString(j);
  }

  // ---------------------------------------------------------------
  // Walking the JSON
  // ---------------------------------------------------------------

  /** `Object.keys(v)` with `v[key]`: the fields of an object, the indices of an array or a string. */
  function Members(v: Json): seq<Entry<Json>> {
    match v
    case JObj(fields) => fields
    case JList(items) => IndexedItems(items, 0)
    case JStr(s) => IndexedChars(s, 0)
  }

  /** The items of a list under their indices, counting from `from`. */
  function IndexedItems(items: seq<Json>, from: nat): seq<Entry<Json>>
    decreases |items|
  {
    if items == [] then [] else [Entry(NatToString(from), items[0])] + IndexedItems(items[1..], from + 1)
  }

  /** The one-character strings of a string under their indices, counting from `from`. */
  function IndexedChars(s: string, from: nat): seq<Entry<Json>>
    decreases |s|
  {
    if s == [] then [] else [Entry(NatToString(from), JStr([s[0]]))] + IndexedChars(s[1..], from + 1)
  }

  /** The entries whose key is not "description". */
  function Visible(es: seq<Entry<Json>>): (r: seq<Entry<Json>>)
    ensures |r| <= |es|
    ensures forall i :: 0 <= i < |r| ==> r[i].key != "description" && r[i] in es
    ensures forall e :: e in es && e.key != "description" ==> e in r
  {
    if es == [] then []
    else (if es[0].key == "description" then [] else [es[0]]) + Visible(es[1..])
  }

  /** `subject.description || ''`. */
  function Description(v: Json): string {
    if v.JObj? then
      var d := Get(v.fields, "description");
      if d.Some? && d.value.JStr? then d.value.s else ""
    else ""
  }

  /** `track.steps[stepName]` for each name of a list of step names. */
  function StepsNamed(steps: seq<Entry<seq<Entry<Json>>>>, names: seq<string>): (r: seq<seq<Entry<Json>>>)
    requires forall n :: n in names ==> HasKey(steps, n)
    ensures |r| == |names|
  {
    if names == [] then [] else [Get(steps, names[0]).value] + StepsNamed(steps, names[1..])
  }

  /** The steps of a track in the order of their sorted names. */
  function SortedSteps(steps: seq<Entry<seq<Entry<Json>>>>): seq<seq<Entry<Json>>> {
    var names := Sort(Keys(steps));
    assert forall n :: n in names ==> HasKey(steps, n) by {
      forall n | n in names ensures HasKey(steps, n) {
        SortKeepsMembers(Keys(steps), n);
      }
    }
    StepsNamed(steps, names)
  }

  // ---------------------------------------------------------------
  // The layout as the loops build it
  // ---------------------------------------------------------------

  datatype TechNode = TechNode(id: string, subjectLabel: string, description: string, status: Status, stars: nat, category: string)

  datatype TechEdge = TechEdge(id: string, source: string, target: string, animated: bool)

  datatype Layout = Layout(nodes: seq<TechNode>, edges: seq<TechEdge>)

  /** The edge `e-<source>-<target>` drawn from a node of the previous step to a new node. */
  function EdgeTo(source: string, target: string, animated: bool): TechEdge {
    TechEdge("e-" + source + "-" + target, source, target, animated)
  }

  /** The edges from each node of the previous step to a new node. */
  function Connect(prev: seq<string>, id: string, animated: bool): (r: seq<TechEdge>)
    ensures |r| == |prev|
  {
    seq(|prev|, i requires 0 <= i < |prev| => EdgeTo(prev[i], id, animated))
  }

  /** The identifiers NodeId(from), ..., NodeId(from + n - 1). */
  function Ids(from: nat, n: nat): (r: seq<string>)
    ensures |r| == n && forall i :: 0 <= i < n ==> r[i] == NodeId(from + i)
  {
    seq(n, i requires 0 <= i < n => NodeId(from + i))
  }

  /** The subjects of one option, each becoming a node linked from every node of the previous step. */
  function PlaceSubjects(l: Layout, prev: seq<string>, subjects: seq<Entry<Json>>, status: Status, category: string): (r: Layout)
    ensures |r.nodes| == |l.nodes| + |subjects|
    decreases |subjects|
  {
    if subjects == [] then l
    else
      var id := NodeId(|l.nodes|);
      var node := TechNode(id, subjects[0].key, Description(subjects[0].value), status, StarCount(status), category);
      PlaceSubjects(Layout(l.nodes + [node], l.edges + Connect(prev, id, Lit(status))), prev, subjects[1..], status, category)
  }

  /** The options of one step, skipping its "description" key. */
  function PlaceOptions(l: Layout, prev: seq<string>, options: seq<Entry<Json>>, status: Status, category: string): (r: Layout)
    ensures |r.nodes| >= |l.nodes|
    decreases |options|
  {
    if options == [] then l
    else if options[0].key == "description" then PlaceOptions(l, prev, options[1..], status, category)
    else PlaceOptions(PlaceSubjects(l, prev, Visible(Members(options[0].value)), status, category), prev, options[1..], status, category)
  }

  /** The steps of one track; each step's nodes become the previous step of the next. */
  function PlaceSteps(l: Layout, prev: seq<string>, steps: seq<seq<Entry<Json>>>, trackIndex: nat, stepIndex: nat, category: string): Layout
    decreases |steps|
  {
    if steps == [] then l
    else
      var next := PlaceOptions(l, prev, steps[0], GetStatus(trackIndex, stepIndex), category);
      PlaceSteps(next, Ids(|l.nodes|, |next.nodes| - |l.nodes|), steps[1..], trackIndex, stepIndex + 1, category)
  }

  /** The tracks in order; every track starts with no previous step. */
  function PlaceTracks(l: Layout, tree: Tree, trackIndex: nat): Layout
    decreases |tree|
  {
    if tree == [] then l
    else
      var next := PlaceSteps(l, [], SortedSteps(tree[0].value.steps), trackIndex, 0, GetCategory(tree[0].key));
      PlaceTracks(next, tree[1..], trackIndex + 1)
  }

  function TreeLayout(tree: Tree): Layout {
    PlaceTracks(Layout([], []), tree, 0)
  }

  // ---------------------------------------------------------------
  // getLayoutedElements
  // ---------------------------------------------------------------

  method ConnectFrom(prev: seq<string>, id: string, animated: bool, edges: seq<TechEdge>) returns (edges': seq<TechEdge>)
    ensures edges' == edges + Connect(prev, id, animated)
  {
    edges' := edges;
    var i := 0;
    while i < |prev|
      invariant 0 <= i <= |prev|
      invariant edges' == edges + Connect(prev, id, animated)[..i]
    {
      assert Connect(prev, id, animated)[..i + 1] == Connect(prev, id, animated)[..i] + [Connect(prev, id, animated)[i]];
      edges' := edges' + [EdgeTo(prev[i], id, animated)];
      i := i + 1;
    }
    assert Connect(prev, id, animated)[..i] == Connect(prev, id, animated);
  }

  /** The subjects of one option, as the innermost loop creates them. */
  method PlaceOption(l: Layout, prev: seq<string>, subjects: seq<Entry<Json>>, status: Status, category: string)
    returns (r: Layout, created: seq<string>)
    ensures r == PlaceSubjects(l, prev, subjects, status, category)
    ensures created == Ids(|l.nodes|, |subjects|)
  {
    var nodes, edges := l.nodes, l.edges;
    created := [];
    var j := 0;
    while j < |subjects|
      invariant 0 <= j <= |subjects|
      invariant |nodes| == |l.nodes| + j
      invariant created == Ids(|l.nodes|, j)
      invariant PlaceSubjects(l, prev, subjects, status, category) == PlaceSubjects(Layout(nodes, edges), prev, subjects[j..], status, category)
    {
      assert subjects[j..][1..] == subjects[j + 1..];
      var id := NodeId(|nodes|);
      nodes := nodes + [TechNode(id, subjects[j].key, Description(subjects[j].value), status, StarCount(status), category)];
      created := created + [id];
      edges := ConnectFrom(prev, id, Lit(status), edges);
      j := j + 1;
    }
    r := Layout(nodes, edges);
  }

  /** One step: its options, then their subjects; returns the new nodes' identifiers. */
  method PlaceStep(l: Layout, prev: seq<string>, step: seq<Entry<Json>>, status: Status, category: string)
    returns (r: Layout, current: seq<string>)
    ensures r == PlaceOptions(l, prev, step, status, category)
    ensures current == Ids(|l.nodes|, |r.nodes| - |l.nodes|)
  {
    r := l;
    current := [];
    var k := 0;
    while k < |step|
      invariant 0 <= k <= |step|
      invariant |r.nodes| >= |l.nodes|
      invariant PlaceOptions(l, prev, step, status, category) == PlaceOptions(r, prev, step[k..], status, category)
      invariant current == Ids(|l.nodes|, |r.nodes| - |l.nodes|)
    {
      PlaceOptionsNext(r, prev, step[k..], status, category);
      assert step[k..][0] == step[k] && step[k..][1..] == step[k + 1..];
      var before := |r.nodes|;
      var created;
      r, created := PlaceEntry(r, prev, step[k], status, category);
      IdsAppend(|l.nodes|, before, |r.nodes|);
      current := current + created;
      k := k + 1;
    }
  }

  /** One key of a step: "description" is skipped, any other key is an option whose subjects are placed. */
  function NextLayout(l: Layout, prev: seq<string>, e: Entry<Json>, status: Status, category: string): (r: Layout)
    ensures |r.nodes| >= |l.nodes|
  {
    if e.key == "description" then l else PlaceSubjects(l, prev, Visible(Members(e.value)), status, category)
  }

  lemma PlaceOptionsNext(l: Layout, prev: seq<string>, options: seq<Entry<Json>>, status: Status, category: string)
    requires options != []
    ensures PlaceOptions(l, prev, options, status, category)
      == PlaceOptions(NextLayout(l, prev, options[0], status, category), prev, options[1..], status, category)
  {
  }

  /** The body of `PlaceStep`'s option loop, not a source function of its own; returns the identifiers of the nodes it created. */
  method PlaceEntry(l: Layout, prev: seq<string>, e: Entry<Json>, status: Status, category: string)
    returns (r: Layout, created: seq<string>)
    ensures r == NextLayout(l, prev, e, status, category)
    ensures created == Ids(|l.nodes|, |r.nodes| - |l.nodes|)
  {
    if e.key == "description" {
      r, created := l, [];
    } else {
      r, created := PlaceOption(l, prev, Visible(Members(e.value)), status, category);
    }
  }

  lemma IdsAppend(from: nat, middle: nat, stop: nat)
    requires from <= middle <= stop
    ensures Ids(from, middle - from) + Ids(middle, stop - middle) == Ids(from, stop - from)
  {
    var joined := Ids(from, middle - from) + Ids(middle, stop - middle);
    forall i | 0 <= i < stop - from
      ensures joined[i] == NodeId(from + i)
    {
      if i >= middle - from {
        assert joined[i] == Ids(middle, stop - middle)[i - (middle - from)];
      }
    }
  }

  /** The steps of one track, each linked from the one before it. */
  method PlaceTrack(l: Layout, steps: seq<seq<Entry<Json>>>, trackIndex: nat, category: string) returns (r: Layout)
    ensures r == PlaceSteps(l, [], steps, trackIndex, 0, category)
  {
    r := l;
    var previous: seq<string> := [];
    var s := 0;
    while s < |steps|
      invariant 0 <= s <= |steps|
      invariant PlaceSteps(l, [], steps, trackIndex, 0, category) == PlaceSteps(r, previous, steps[s..], trackIndex, s, category)
    {
      assert steps[s..][1..] == steps[s + 1..];
      var current;
      r, current := PlaceStep(r, previous, steps[s], GetStatus(trackIndex, s), category);
      previous := current;
      s := s + 1;
    }
  }

  /** `getLayoutedElements` without the dagre positions. */
  method GetLayoutedElements(tree: Tree) returns (nodes: seq<TechNode>, edges: seq<TechEdge>)
    ensures Layout(nodes, edges) == TreeLayout(tree)
  {
    var l := Layout([], []);
    var t := 0;
    while t < |tree|
      invariant 0 <= t <= |tree|
      invariant TreeLayout(tree) == PlaceTracks(l, tree[t..], t)
    {
      assert tree[t..][1..] == tree[t + 1..];
      l := PlaceTrack(l, SortedSteps(tree[t].value.steps), t, GetCategory(tree[t].key));
      t := t + 1;
    }
    nodes, edges := l.nodes, l.edges;
  }

  // ---------------------------------------------------------------
  // What the layout guarantees
  // ---------------------------------------------------------------

  /** The k-th node carries the identifier "node-k". */
  predicate Sequential(l: Layout) {
    forall k :: 0 <= k < |l.nodes| ==> l.nodes[k].id == NodeId(k)
  }

  /**
   * Edge `e` runs from the i-th node to a later j-th node, is named after
   * both ends and is animated exactly when its target is open.
   */
  predicate Linked(l: Layout, e: TechEdge, i: nat, j: nat) {
    && i < j < |l.nodes|
    && e.source == NodeId(i) && e.target == NodeId(j)
    && e.id == "e-" + e.source + "-" + e.target
    && e.animated == Lit(l.nodes[j].status)
  }

  ghost predicate EdgesForward(l: Layout) {
    forall e :: e in l.edges ==> exists i: nat, j: nat :: Linked(l, e, i, j)
  }

  /** `id` names a node already placed. */
  ghost predicate IsNode(l: Layout, id: string) {
    exists i: nat :: i < |l.nodes| && id == NodeId(i)
  }

  /** Every identifier in `prev` names a node already placed. */
  ghost predicate Placed(l: Layout, prev: seq<string>) {
    forall q :: 0 <= q < |prev| ==> IsNode(l, prev[q])
  }

  ghost predicate WellFormed(l: Layout) {
    Sequential(l) && EdgesForward(l)
  }

  /** Placing one node keeps the layout well formed and keeps earlier nodes. */
  lemma PlaceOneKeeps(l: Layout, prev: seq<string>, subject: Entry<Json>, status: Status, category: string)
    requires WellFormed(l) && Placed(l, prev)
    ensures var id := NodeId(|l.nodes|);
      var l' := Layout(l.nodes + [TechNode(id, subject.key, Description(subject.value), status, StarCount(status), category)],
                       l.edges + Connect(prev, id, Lit(status)));
      WellFormed(l') && Placed(l', prev)
  {
    var id := NodeId(|l.nodes|);
    var l' := Layout(l.nodes + [TechNode(id, subject.key, Description(subject.value), status, StarCount(status), category)],
                     l.edges + Connect(prev, id, Lit(status)));
    forall e | e in l'.edges
      ensures exists i: nat, j: nat :: Linked(l', e, i, j)
    {
      if e in l.edges {
        var i: nat, j: nat :| Linked(l, e, i, j);
        assert l'.nodes[j] == l.nodes[j];
        assert Linked(l', e, i, j);
      } else {
        var c := Connect(prev, id, Lit(status));
        var q :| 0 <= q < |c| && c[q] == e;
        var i: nat :| i < |l.nodes| && prev[q] == NodeId(i);
        assert Linked(l', e, i, |l.nodes|);
      }
    }
    forall q | 0 <= q < |prev|
      ensures IsNode(l', prev[q])
    {
      var i: nat :| i < |l.nodes| && prev[q] == NodeId(i);
    }
  }

  lemma {:induction false} PlaceSubjectsKeeps(l: Layout, prev: seq<string>, subjects: seq<Entry<Json>>, status: Status, category: string)
    requires WellFormed(l) && Placed(l, prev)
    ensures WellFormed(PlaceSubjects(l, prev, subjects, status, category))
    ensures Placed(PlaceSubjects(l, prev, subjects, status, category), prev)
    decreases |subjects|
  {
    if subjects != [] {
      PlaceOneKeeps(l, prev, subjects[0], status, category);
      var id := NodeId(|l.nodes|);
      var node := TechNode(id, subjects[0].key, Description(subjects[0].value), status, StarCount(status), category);
      PlaceSubjectsKeeps(Layout(l.nodes + [node], l.edges + Connect(prev, id, Lit(status))), prev, subjects[1..], status, category);
    }
  }

  lemma {:induction false} PlaceOptionsKeeps(l: Layout, prev: seq<string>, options: seq<Entry<Json>>, status: Status, category: string)
    requires WellFormed(l) && Placed(l, prev)
    ensures WellFormed(PlaceOptions(l, prev, options, status, category))
    decreases |options|
  {
    if options != [] {
      if options[0].key == "description" {
        PlaceOptionsKeeps(l, prev, options[1..], status, category);
      } else {
        var subjects := Visible(Members(options[0].value));
        PlaceSubjectsKeeps(l, prev, subjects, status, category);
        PlaceOptionsKeeps(PlaceSubjects(l, prev, subjects, status, category), prev, options[1..], status, category);
      }
    }
  }

  lemma IdsPlaced(l: Layout, from: nat, n: nat)
    requires from + n <= |l.nodes|
    ensures Placed(l, Ids(from, n))
  {
    var prev := Ids(from, n);
    forall q | 0 <= q < |prev|
      ensures IsNode(l, prev[q])
    {
      var i: nat := from + q;
      assert i < |l.nodes| && prev[q] == NodeId(i);
    }
  }

  lemma {:induction false} PlaceStepsKeeps(l: Layout, prev: seq<string>, steps: seq<seq<Entry<Json>>>, trackIndex: nat, stepIndex: nat, category: string)
    requires WellFormed(l) && Placed(l, prev)
    ensures WellFormed(PlaceSteps(l, prev, steps, trackIndex, stepIndex, category))
    decreases |steps|
  {
    if steps != [] {
      var next := PlaceOptions(l, prev, steps[0], GetStatus(trackIndex, stepIndex), category);
      PlaceOptionsKeeps(l, prev, steps[0], GetStatus(trackIndex, stepIndex), category);
      IdsPlaced(next, |l.nodes|, |next.nodes| - |l.nodes|);
      PlaceStepsKeeps(next, Ids(|l.nodes|, |next.nodes| - |l.nodes|), steps[1..], trackIndex, stepIndex + 1, category);
    }
  }

  lemma {:induction false} PlaceTracksKeeps(l: Layout, tree: Tree, trackIndex: nat)
    requires WellFormed(l)
    ensures WellFormed(PlaceTracks(l, tree, trackIndex))
    decreases |tree|
  {
    if tree != [] {
      PlaceStepsKeeps(l, [], SortedSteps(tree[0].value.steps), trackIndex, 0, GetCategory(tree[0].key));
      PlaceTracksKeeps(PlaceSteps(l, [], SortedSteps(tree[0].value.steps), trackIndex, 0, GetCategory(tree[0].key)), tree[1..], trackIndex + 1);
    }
  }

  /**
   * The whole graph: node k is "node-k", so no two nodes share an
   * identifier, and every edge runs from an earlier node to a later one,
   * is named "e-<source>-<target>" and is animated exactly when its target
   * is available or mastered.
   */
  lemma LayoutWellFormed(tree: Tree)
    ensures Sequential(TreeLayout(tree)) && EdgesForward(TreeLayout(tree))
    ensures forall i, j :: 0 <= i < j < |TreeLayout(tree).nodes| ==> TreeLayout(tree).nodes[i].id != TreeLayout(tree).nodes[j].id
  {
    PlaceTracksKeeps(Layout([], []), tree, 0);
    var l := TreeLayout(tree);
    forall i, j | 0 <= i < j < |l.nodes|
      ensures l.nodes[i].id != l.nodes[j].id
    {
      if l.nodes[i].id == l.nodes[j].id {
        NodeIdInjective(i, j);
      }
    }
  }

  /** The edges into the nodes from..stop-1, in creation order, each from every node of `prev`. */
  function Mesh(prev: seq<string>, from: nat, stop: nat, animated: bool): seq<TechEdge>
    decreases stop - from
  {
    if stop <= from then [] else Connect(prev, NodeId(from), animated) + Mesh(prev, from + 1, stop, animated)
  }

  lemma AppendAssociates(a: seq<TechEdge>, b: seq<TechEdge>, c: seq<TechEdge>)
    ensures (a + b) + c == a + (b + c)
  {
  }

  lemma {:induction false} MeshSplit(prev: seq<string>, from: nat, middle: nat, stop: nat, animated: bool)
    requires from <= middle <= stop
    ensures Mesh(prev, from, stop, animated) == Mesh(prev, from, middle, animated) + Mesh(prev, middle, stop, animated)
    decreases middle - from
  {
    if from < middle {
      MeshSplit(prev, from + 1, middle, stop, animated);
      AppendAssociates(Connect(prev, NodeId(from), animated), Mesh(prev, from + 1, middle, animated), Mesh(prev, middle, stop, animated));
    }
  }

  lemma {:induction false} MeshSize(prev: seq<string>, from: nat, stop: nat, animated: bool)
    requires from <= stop
    ensures |Mesh(prev, from, stop, animated)| == |prev| * (stop - from)
    decreases stop - from
  {
    if from < stop {
      MeshSize(prev, from + 1, stop, animated);
      assert |prev| * (stop - from) == |prev| + |prev| * (stop - (from + 1));
    }
  }

  /** With no previous step there is nothing to connect from. */
  lemma {:induction false} MeshEmpty(from: nat, stop: nat, animated: bool)
    ensures Mesh([], from, stop, animated) == []
    decreases stop - from
  {
    if from < stop {
      MeshEmpty(from + 1, stop, animated);
      assert Connect([], NodeId(from), animated) == [];
    }
  }

  /** Every mesh edge runs from a node of `prev` to one of the new nodes. */
  lemma {:induction false} MeshSound(prev: seq<string>, from: nat, stop: nat, animated: bool, e: TechEdge)
    requires e in Mesh(prev, from, stop, animated)
    ensures exists q, k :: (0 <= q < |prev| && from <= k < stop && e == EdgeTo(prev[q], NodeId(k), animated))
    decreases stop - from
  {
    var c := Connect(prev, NodeId(from), animated);
    if e in c {
      var q :| 0 <= q < |c| && c[q] == e;
      assert e == EdgeTo(prev[q], NodeId(from), animated);
    } else {
      MeshSound(prev, from + 1, stop, animated, e);
    }
  }

  /** The mesh holds the edge from every node of `prev` to every new node. */
  lemma {:induction false} MeshComplete(prev: seq<string>, from: nat, stop: nat, animated: bool, q: nat, k: nat)
    requires q < |prev| && from <= k < stop
    ensures EdgeTo(prev[q], NodeId(k), animated) in Mesh(prev, from, stop, animated)
    decreases stop - from
  {
    if k == from {
      assert Connect(prev, NodeId(from), animated)[q] == EdgeTo(prev[q], NodeId(k), animated);
    } else {
      MeshComplete(prev, from + 1, stop, animated, q, k);
    }
  }

  lemma {:induction false} PlaceSubjectsEdges(l: Layout, prev: seq<string>, subjects: seq<Entry<Json>>, status: Status, category: string)
    ensures var r := PlaceSubjects(l, prev, subjects, status, category);
      r.edges == l.edges + Mesh(prev, |l.nodes|, |r.nodes|, Lit(status))
    decreases |subjects|
  {
    if subjects != [] {
      var id := NodeId(|l.nodes|);
      var node := TechNode(id, subjects[0].key, Description(subjects[0].value), status, StarCount(status), category);
      var c := Connect(prev, id, Lit(status));
      var l' := Layout(l.nodes + [node], l.edges + c);
      PlaceSubjectsEdges(l', prev, subjects[1..], status, category);
      var r := PlaceSubjects(l', prev, subjects[1..], status, category);
      assert |l'.nodes| == |l.nodes| + 1 && |r.nodes| > |l.nodes|;
      assert Mesh(prev, |l.nodes|, |r.nodes|, Lit(status)) == c + Mesh(prev, |l.nodes| + 1, |r.nodes|, Lit(status));
    }
  }

  /**
   * `r` keeps the nodes of `l` and appends only nodes with the given
   * status, the matching star count and the given category.
   */
  predicate AppendsNodes(l: Layout, r: Layout, status: Status, category: string) {
    && |l.nodes| <= |r.nodes|
    && r.nodes[..|l.nodes|] == l.nodes
    && forall k :: |l.nodes| <= k < |r.nodes| ==>
      r.nodes[k].status == status && r.nodes[k].stars == StarCount(status) && r.nodes[k].category == category
  }

  lemma AppendsNodesChain(l: Layout, mid: Layout, r: Layout, status: Status, category: string)
    requires AppendsNodes(l, mid, status, category) && AppendsNodes(mid, r, status, category)
    ensures AppendsNodes(l, r, status, category)
  {
    assert r.nodes[..|l.nodes|] == r.nodes[..|mid.nodes|][..|l.nodes|];
    forall k | |l.nodes| <= k < |mid.nodes|
      ensures r.nodes[k] == mid.nodes[k]
    {
      assert r.nodes[k] == r.nodes[..|mid.nodes|][k];
    }
  }

  lemma {:induction false} PlaceSubjectsNodes(l: Layout, prev: seq<string>, subjects: seq<Entry<Json>>, status: Status, category: string)
    ensures AppendsNodes(l, PlaceSubjects(l, prev, subjects, status, category), status, category)
    decreases |subjects|
  {
    if subjects == [] {
      assert l.nodes[..|l.nodes|] == l.nodes;
    } else {
      var id := NodeId(|l.nodes|);
      var node := TechNode(id, subjects[0].key, Description(subjects[0].value), status, StarCount(status), category);
      var l' := Layout(l.nodes + [node], l.edges + Connect(prev, id, Lit(status)));
      assert l'.nodes[..|l.nodes|] == l.nodes;
      assert AppendsNodes(l, l', status, category);
      PlaceSubjectsNodes(l', prev, subjects[1..], status, category);
      assert PlaceSubjects(l, prev, subjects, status, category) == PlaceSubjects(l', prev, subjects[1..], status, category);
      AppendsNodesChain(l, l', PlaceSubjects(l', prev, subjects[1..], status, category), status, category);
    }
  }

  /**
   * The edges one step of `getLayoutedElements` adds are the mesh from the
   * previous step's nodes to the nodes the step creates (see MeshIsComplete).
   */
  lemma {:induction false} StepEdges(l: Layout, prev: seq<string>, step: seq<Entry<Json>>, status: Status, category: string)
    ensures var r := PlaceOptions(l, prev, step, status, category);
      r.edges == l.edges + Mesh(prev, |l.nodes|, |r.nodes|, Lit(status))
    decreases |step|, 1
  {
    if step != [] {
      if step[0].key == "description" {
        assert PlaceOptions(l, prev, step, status, category) == PlaceOptions(l, prev, step[1..], status, category);
        StepEdges(l, prev, step[1..], status, category);
      } else {
        var subjects := Visible(Members(step[0].value));
        assert PlaceOptions(l, prev, step, status, category)
          == PlaceOptions(PlaceSubjects(l, prev, subjects, status, category), prev, step[1..], status, category);
        OptionEdges(l, prev, subjects, step[1..], status, category);
      }
    }
  }

  /** One option of a step: its subjects' edges, then those of the options after it. */
  lemma {:induction false} OptionEdges(l: Layout, prev: seq<string>, subjects: seq<Entry<Json>>, rest: seq<Entry<Json>>, status: Status, category: string)
    ensures var r := PlaceOptions(PlaceSubjects(l, prev, subjects, status, category), prev, rest, status, category);
      r.edges == l.edges + Mesh(prev, |l.nodes|, |r.nodes|, Lit(status))
    decreases |rest| + 1, 0
  {
    var mid := PlaceSubjects(l, prev, subjects, status, category);
    PlaceSubjectsEdges(l, prev, subjects, status, category);
    StepEdges(mid, prev, rest, status, category);
    MeshesChain(l, mid, PlaceOptions(mid, prev, rest, status, category), prev, Lit(status));
  }

  /** A mesh appended after a mesh from the same previous step is one mesh. */
  lemma MeshesChain(l: Layout, mid: Layout, r: Layout, prev: seq<string>, animated: bool)
    requires |l.nodes| <= |mid.nodes| <= |r.nodes|
    requires mid.edges == l.edges + Mesh(prev, |l.nodes|, |mid.nodes|, animated)
    requires r.edges == mid.edges + Mesh(prev, |mid.nodes|, |r.nodes|, animated)
    ensures r.edges == l.edges + Mesh(prev, |l.nodes|, |r.nodes|, animated)
  {
    MeshSplit(prev, |l.nodes|, |mid.nodes|, |r.nodes|, animated);
    AppendAssociates(l.edges, Mesh(prev, |l.nodes|, |mid.nodes|, animated), Mesh(prev, |mid.nodes|, |r.nodes|, animated));
  }

  /**
   * One step appends its nodes after the earlier ones, all with the step's
   * status, the matching star count and the track's category.
   */
  lemma {:induction false} StepNodes(l: Layout, prev: seq<string>, step: seq<Entry<Json>>, status: Status, category: string)
    ensures AppendsNodes(l, PlaceOptions(l, prev, step, status, category), status, category)
    decreases |step|
  {
    if step == [] {
      assert l.nodes[..|l.nodes|] == l.nodes;
    } else if step[0].key == "description" {
      assert PlaceOptions(l, prev, step, status, category) == PlaceOptions(l, prev, step[1..], status, category);
      StepNodes(l, prev, step[1..], status, category);
    } else {
      var subjects := Visible(Members(step[0].value));
      var mid := PlaceSubjects(l, prev, subjects, status, category);
      assert PlaceOptions(l, prev, step, status, category) == PlaceOptions(mid, prev, step[1..], status, category);
      PlaceSubjectsNodes(l, prev, subjects, status, category);
      StepNodes(mid, prev, step[1..], status, category);
      AppendsNodesChain(l, mid, PlaceOptions(mid, prev, step[1..], status, category), status, category);
    }
  }

  /**
   * What an appended mesh means: the earlier edges are kept, and the new
   * ones are exactly one edge from each node of `prev` to each new node,
   * |prev| times as many as there are new nodes.
   */
  lemma MeshIsComplete(l: Layout, r: Layout, prev: seq<string>, animated: bool)
    requires |r.nodes| >= |l.nodes|
    requires r.edges == l.edges + Mesh(prev, |l.nodes|, |r.nodes|, animated)
    ensures |r.edges| == |l.edges| + |prev| * (|r.nodes| - |l.nodes|)
    ensures r.edges[..|l.edges|] == l.edges
    ensures forall e :: e in r.edges[|l.edges|..] ==>
      exists q, k :: 0 <= q < |prev| && |l.nodes| <= k < |r.nodes| && e == EdgeTo(prev[q], NodeId(k), animated)
    ensures forall q, k :: 0 <= q < |prev| && |l.nodes| <= k < |r.nodes| ==>
      EdgeTo(prev[q], NodeId(k), animated) in r.edges[|l.edges|..]
  {
    var mesh := Mesh(prev, |l.nodes|, |r.nodes|, animated);
    assert r.edges[|l.edges|..] == mesh;
    MeshSize(prev, |l.nodes|, |r.nodes|, animated);
    forall e | e in mesh
      ensures exists q, k :: 0 <= q < |prev| && |l.nodes| <= k < |r.nodes| && e == EdgeTo(prev[q], NodeId(k), animated)
    {
      MeshSound(prev, |l.nodes|, |r.nodes|, animated, e);
    }
    forall q, k | 0 <= q < |prev| && |l.nodes| <= k < |r.nodes|
      ensures EdgeTo(prev[q], NodeId(k), animated) in mesh
    {
      MeshComplete(prev, |l.nodes|, |r.nodes|, animated, q, k);
    }
  }

  /** The first step of a track (no previous step) gains no edges: tracks are never linked to each other. */
  lemma FirstStepUnlinked(l: Layout, step: seq<Entry<Json>>, status: Status, category: string)
    ensures PlaceOptions(l, [], step, status, category).edges == l.edges
  {
    var r := PlaceOptions(l, [], step, status, category);
    StepEdges(l, [], step, status, category);
    MeshEmpty(|l.nodes|, |r.nodes|, Lit(status));
    assert r.edges == l.edges + [];
  }
}
