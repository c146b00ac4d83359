/**
 * backend/scripts/sync_track_to_db.py: rebuilds the MongoDB `tracks`
 * collection from the curriculum file. The collection is a class whose
 * document list the script clears and then refills; the document shapes
 * follow the script's dictionaries (the `last_updated` timestamp is left
 * out).
 */
module TrackSync {
  import opened Wrappers
  import opened Curriculum
  import opened Sorting

  datatype SubjectDoc = SubjectDoc(title: string, levels: Json)

  datatype OptionDoc = OptionDoc(optionName: string, subjects: seq<SubjectDoc>)

  /** "FIXED" for a step with exactly one option, "BRANCH" otherwise. */
  datatype StepType = Fixed | Branch

  datatype StepDoc = StepDoc(stepName: string, stepType: StepType, subjects: seq<SubjectDoc>, options: seq<OptionDoc>)

  datatype TrackDoc = TrackDoc(title: string, description: string, order: nat, steps: seq<StepDoc>)

  /** Each (subject title, levels) pair of an option, in dictionary order. */
  function SubjectDocs(fields: seq<Entry<Json>>): (r: seq<SubjectDoc>)
    ensures |r| == |fields| && forall i :: 0 <= i < |fields| ==> r[i] == SubjectDoc(fields[i].key, fields[i].value)
  {
    seq(|fields|, i requires 0 <= i < |fields| => SubjectDoc(fields[i].key, fields[i].value))
  }

  /** What Python raises when a dictionary is subscripted with a missing key. */
  const KeyError := "KeyError"

  /** `step_content[name]` is a dictionary. */
  predicate IsObjectAt(step: seq<Entry<Json>>, name: string) {
    Get(step, name).Some? && Get(step, name).value.JObj?
  }

  /**
   * The options named `names[i..]`, in that order; subscripting fails on a
   * missing name and `.items()` on an option that is not a dictionary.
   */
  function OptionDocs(step: seq<Entry<Json>>, names: seq<string>, i: nat): Result<seq<OptionDoc>>
    requires i <= |names|
    decreases |names| - i
  {
    if i == |names| then Ok([])
    else
      var data := Get(step, names[i]);
      if data.None? then Crash(KeyError)
      else if !data.value.JObj? then Crash(NoItems)
      else match OptionDocs(step, names, i + 1)
        case Crash(e) => Crash(e)
        case Ok(rest) => Ok([OptionDoc(names[i], SubjectDocs(data.value.fields))] + rest)
  }

  /** A step's options under `sorted(step_content.keys())`. */
  function SortedOptionDocs(step: seq<Entry<Json>>): Result<seq<OptionDoc>> {
    OptionDocs(step, Sort(Keys(step)), 0)
  }

  function StepDocOf(name: string, options: seq<OptionDoc>): StepDoc {
    StepDoc(name, if |options| == 1 then Fixed else Branch, [], options)
  }

  /** The steps named `names[i..]`, in that order, each with its options in sorted order. */
  function StepDocs(steps: seq<Entry<seq<Entry<Json>>>>, names: seq<string>, i: nat): Result<seq<StepDoc>>
    requires i <= |names|
    decreases |names| - i
  {
    if i == |names| then Ok([])
    else
      var content := Get(steps, names[i]);
      if content.None? then Crash(KeyError)
      else match SortedOptionDocs(content.value)
        case Crash(e) => Crash(e)
        case Ok(options) =>
          match StepDocs(steps, names, i + 1)
          case Crash(e) => Crash(e)
          case Ok(rest) => Ok([StepDocOf(names[i], options)] + rest)
  }

  /** A track's steps under `sorted(track_data["steps"].keys())`. */
  function SortedStepDocs(steps: seq<Entry<seq<Entry<Json>>>>): Result<seq<StepDoc>> {
    StepDocs(steps, Sort(Keys(steps)), 0)
  }

  /** The documents of the tracks `tree[t..]`; the t-th track (from 0) gets order t + 1. */
  function TrackDocs(tree: Tree, t: nat): Result<seq<TrackDoc>>
    requires t <= |tree|
    decreases |tree| - t
  {
    if t == |tree| then Ok([])
    else
      var data := tree[t].value;
      match SortedStepDocs(data.steps)
      case Crash(e) => Crash(e)
      case Ok(steps) =>
        match TrackDocs(tree, t + 1)
        case Crash(e) => Crash(e)
        case Ok(rest) => Ok([TrackDoc(tree[t].key, data.description, t + 1, steps)] + rest)
  }

  /** `acc` followed by what the rest of the loop produces, unless the rest fails. */
  function Prepend<T>(acc: seq<T>, r: Result<seq<T>>): (p: Result<seq<T>>)
    ensures acc == [] ==> p == r
  {
    match r
    case Crash(e) => Crash(e)
    case Ok(rest) => assert [] + rest == rest; Ok(acc + rest)
  }

  lemma PrependOne<T>(acc: seq<T>, x: T, r: Result<seq<T>>)
    ensures Prepend(acc, Prepend([x], r)) == Prepend(acc + [x], r)
  {
    if r.Ok? {
      assert acc + ([x] + r.value) == (acc + [x]) + r.value;
    }
  }

  /** The `tracks` collection of the database. */
  class TrackCollection {
    var docs: seq<TrackDoc>

    constructor ()
      ensures docs == []
    {
      docs := [];
    }

    /** `delete_many({})`: removes every document and says how many there were. */
    method DeleteMany() returns (deleted: nat)
      modifies this
      ensures docs == [] && deleted == |old(docs)|
    {
      deleted := |docs|;
      docs := [];
    }

    /** `insert_many(new_docs)`: appends the documents and says how many were inserted. */
    method InsertMany(newDocs: seq<TrackDoc>) returns (inserted: nat)
      modifies this
      ensures docs == old(docs) + newDocs && inserted == |newDocs|
    {
      docs := docs + newDocs;
      inserted := |newDocs|;
    }
  }

  /** The loop over one option's (subject title, levels) pairs. */
  method CollectSubjects(fields: seq<Entry<Json>>) returns (subjects: seq<SubjectDoc>)
    ensures subjects == SubjectDocs(fields)
  {
    subjects := [];
    var j := 0;
    while j < |fields|
      invariant 0 <= j <= |fields|
      invariant subjects == SubjectDocs(fields[..j])
    {
      subjects := subjects + [SubjectDoc(fields[j].key, fields[j].value)];
      j := j + 1;
    }
    assert fields[..j] == fields;
  }

  /** The loop over one step's sorted option names. */
  method BuildOptions(step: seq<Entry<Json>>) returns (r: Result<seq<OptionDoc>>)
    ensures r == SortedOptionDocs(step)
  {
    var names := Sort(Keys(step));
    var options: seq<OptionDoc> := [];
    var i := 0;
    while i < |names|
      invariant 0 <= i <= |names|
      invariant OptionDocs(step, names, 0) == Prepend(options, OptionDocs(step, names, i))
    {
      var data := Get(step, names[i]);
      if data.None? {
        return Crash(KeyError);
      }
      if !data.value.JObj? {
        return Crash(NoItems);
      }
      var subjects := CollectSubjects(data.value.fields);
      PrependOne(options, OptionDoc(names[i], subjects), OptionDocs(step, names, i + 1));
      options := options + [OptionDoc(names[i], subjects)];
      i := i + 1;
    }
    assert options + [] == options;
    r := Ok(options);
  }

  /** The loop over one track's sorted step names. */
  method BuildSteps(steps: seq<Entry<seq<Entry<Json>>>>) returns (r: Result<seq<StepDoc>>)
    ensures r == SortedStepDocs(steps)
  {
    var names := Sort(Keys(steps));
    var docs: seq<StepDoc> := [];
    var i := 0;
    while i < |names|
      invariant 0 <= i <= |names|
      invariant StepDocs(steps, names, 0) == Prepend(docs, StepDocs(steps, names, i))
    {
      var content := Get(steps, names[i]);
      if content.None? {
        return Crash(KeyError);
      }
      var options := BuildOptions(content.value);
      if options.Crash? {
        return Crash(options.error);
      }
      var doc := StepDoc(names[i], if |options.value| == 1 then Fixed else Branch, [], options.value);
      PrependOne(docs, doc, StepDocs(steps, names, i + 1));
      docs := docs + [doc];
      i := i + 1;
    }
    assert docs + [] == docs;
    r := Ok(docs);
  }

  /** The documents of every track, `order` counting from 1. */
  method BuildTrackDocs(tree: Tree) returns (r: Result<seq<TrackDoc>>)
    ensures r == TrackDocs(tree, 0)
  {
    var docs: seq<TrackDoc> := [];
    var order := 1;
    var t := 0;
    while t < |tree|
      invariant 0 <= t <= |tree|
      invariant order == t + 1
      invariant TrackDocs(tree, 0) == Prepend(docs, TrackDocs(tree, t))
    {
      var steps := BuildSteps(tree[t].value.steps);
      if steps.Crash? {
        return Crash(steps.error);
      }
      var doc := TrackDoc(tree[t].key, tree[t].value.description, order, steps.value);
      PrependOne(docs, doc, TrackDocs(tree, t + 1));
      docs := docs + [doc];
      order := order + 1;
      t := t + 1;
    }
    assert docs + [] == docs;
    r := Ok(docs);
  }

  datatype SyncOutcome = NotConnected | Inserted(count: nat) | NothingToInsert | SyncCrash(error: string)

  /**
   * `sync_tracks`: without a connection nothing changes; otherwise the
   * collection is cleared first, so a malformed option leaves it empty, and
   * a successful run leaves exactly the rebuilt documents in it.
   */
  method SyncTracks(db: TrackCollection, connected: bool, tree: Tree) returns (outcome: SyncOutcome)
    modifies db
    ensures !connected ==> outcome == NotConnected && db.docs == old(db.docs)
    ensures connected && TrackDocs(tree, 0).Crash? ==> outcome.SyncCrash? && db.docs == []
    ensures connected && TrackDocs(tree, 0).Ok? ==>
      && db.docs == TrackDocs(tree, 0).value
      && outcome == (if tree == [] then NothingToInsert else Inserted(|tree|))
  {
    if !connected {
      return NotConnected;
    }
    var _ := db.DeleteMany();
    var newDocs := BuildTrackDocs(tree);
    if newDocs.Crash? {
      return SyncCrash(newDocs.error);
    }
    TrackDocsShape(tree, 0);
    if newDocs.value != [] {
      var inserted := db.InsertMany(newDocs.value);
      outcome := Inserted(inserted);
    } else {
      outcome := NothingToInsert;
    }
  }

  // ---------------------------------------------------------------
  // Properties of the rebuilt documents
  // ---------------------------------------------------------------

  /** One option document per name from `i` on, each listing the option's subjects in dictionary order. */
  lemma {:induction false} OptionDocsShape(step: seq<Entry<Json>>, names: seq<string>, i: nat)
    requires i <= |names|
    requires OptionDocs(step, names, i).Ok?
    ensures |OptionDocs(step, names, i).value| == |names| - i
    ensures forall k :: i <= k < |names| ==>
      && IsObjectAt(step, names[k])
      && OptionDocs(step, names, i).value[k - i] == OptionDoc(names[k], SubjectDocs(Get(step, names[k]).value.fields))
    decreases |names| - i
  {
    if i < |names| {
      OptionDocsShape(step, names, i + 1);
    }
  }

  /** Building options fails exactly when one of the names is missing or not a dictionary. */
  lemma {:induction false} OptionDocsCrash(step: seq<Entry<Json>>, names: seq<string>, i: nat)
    requires i <= |names|
    ensures OptionDocs(step, names, i).Crash? <==> exists k | i <= k < |names| :: !IsObjectAt(step, names[k])
    decreases |names| - i
  {
    if i < |names| {
      OptionDocsCrashNext(step, names, i);
      OptionDocsCrash(step, names, i + 1);
      if !IsObjectAt(step, names[i]) {
        assert i <= i < |names|;
      } else if exists k | i <= k < |names| :: !IsObjectAt(step, names[k]) {
        var k :| i <= k < |names| && !IsObjectAt(step, names[k]);
        assert i + 1 <= k;
      }
    }
  }

  lemma OptionDocsCrashNext(step: seq<Entry<Json>>, names: seq<string>, i: nat)
    requires i < |names|
    ensures OptionDocs(step, names, i).Crash? <==> !IsObjectAt(step, names[i]) || OptionDocs(step, names, i + 1).Crash?
  {
  }

  /** Some key of the step holds a value that is not a dictionary. */
  predicate BadStep(step: seq<Entry<Json>>) {
    exists k | 0 <= k < |step| :: !IsObjectAt(step, step[k].key)
  }

  /** Some step of the track is bad. */
  predicate BadTrack(steps: seq<Entry<seq<Entry<Json>>>>) {
    exists j | 0 <= j < |steps| :: Get(steps, steps[j].key).Some? && BadStep(Get(steps, steps[j].key).value)
  }

  /** Each sorted key is the key of some entry. */
  lemma SortedKeyAt<V>(d: seq<Entry<V>>, k: nat) returns (j: nat)
    requires k < |Sort(Keys(d))|
    ensures j < |d| && d[j].key == Sort(Keys(d))[k]
  {
    SortKeepsMembers(Keys(d), Sort(Keys(d))[k]);
    j :| 0 <= j < |Keys(d)| && Keys(d)[j] == Sort(Keys(d))[k];
  }

  /** Each entry's key is among the sorted keys. */
  lemma KeySortedAt<V>(d: seq<Entry<V>>, j: nat) returns (k: nat)
    requires j < |d|
    ensures k < |Sort(Keys(d))| && Sort(Keys(d))[k] == d[j].key
  {
    assert Keys(d)[j] == d[j].key;
    SortKeepsMembers(Keys(d), d[j].key);
    k :| 0 <= k < |Sort(Keys(d))| && Sort(Keys(d))[k] == d[j].key;
  }

  /** A step's options fail to build exactly when the step is bad (sorted keys are never missing). */
  lemma SortedOptionDocsCrash(step: seq<Entry<Json>>)
    ensures SortedOptionDocs(step).Crash? <==> BadStep(step)
  {
    var names := Sort(Keys(step));
    OptionDocsCrash(step, names, 0);
    if SortedOptionDocs(step).Crash? {
      var k :| 0 <= k < |names| && !IsObjectAt(step, names[k]);
      var j := SortedKeyAt(step, k);
      assert !IsObjectAt(step, step[j].key);
    }
    if BadStep(step) {
      var j :| 0 <= j < |step| && !IsObjectAt(step, step[j].key);
      var k := KeySortedAt(step, j);
      assert !IsObjectAt(step, names[k]);
    }
  }

  /** The step named `names[k]` builds without error into the documents `d`. */
  predicate StepBuilt(steps: seq<Entry<seq<Entry<Json>>>>, name: string, d: StepDoc) {
    && Get(steps, name).Some?
    && var content := Get(steps, name).value;
    && d.stepName == name
    && (d.stepType == Fixed <==> |d.options| == 1)
    && d.subjects == []
    && |d.options| == |content|
    && (forall o :: 0 <= o < |d.options| ==> d.options[o].optionName == Sort(Keys(content))[o])
  }

  lemma StepDocShape(steps: seq<Entry<seq<Entry<Json>>>>, name: string, options: seq<OptionDoc>)
    requires Get(steps, name).Some?
    requires SortedOptionDocs(Get(steps, name).value) == Ok(options)
    ensures StepBuilt(steps, name, StepDocOf(name, options))
  {
    var content := Get(steps, name).value;
    OptionDocsShape(content, Sort(Keys(content)), 0);
  }

  /** A step list that was built is the first step's document followed by the rest. */
  lemma StepDocsNext(steps: seq<Entry<seq<Entry<Json>>>>, names: seq<string>, i: nat)
    requires i < |names| && StepDocs(steps, names, i).Ok?
    ensures Get(steps, names[i]).Some? && SortedOptionDocs(Get(steps, names[i]).value).Ok?
    ensures StepDocs(steps, names, i + 1).Ok?
    ensures StepDocs(steps, names, i).value
      == [StepDocOf(names[i], SortedOptionDocs(Get(steps, names[i]).value).value)] + StepDocs(steps, names, i + 1).value
  {
  }

  /** `docs` holds one built document per name from `i` on. */
  predicate StepsBuiltFrom(steps: seq<Entry<seq<Entry<Json>>>>, names: seq<string>, i: nat, docs: seq<StepDoc>)
    requires i <= |names|
  {
    && |docs| == |names| - i
    && forall k :: i <= k < |names| ==> StepBuilt(steps, names[k], docs[k - i])
  }

  lemma StepsBuiltCons(steps: seq<Entry<seq<Entry<Json>>>>, names: seq<string>, i: nat, head: StepDoc, rest: seq<StepDoc>)
    requires i < |names|
    requires StepBuilt(steps, names[i], head) && StepsBuiltFrom(steps, names, i + 1, rest)
    ensures StepsBuiltFrom(steps, names, i, [head] + rest)
  {
    forall k | i + 1 <= k < |names|
      ensures StepBuilt(steps, names[k], ([head] + rest)[k - i])
    {
      assert ([head] + rest)[k - i] == rest[k - (i + 1)];
    }
  }

  lemma {:induction false} StepDocsBuilt(steps: seq<Entry<seq<Entry<Json>>>>, names: seq<string>, i: nat)
    requires i <= |names|
    requires StepDocs(steps, names, i).Ok?
    ensures StepsBuiltFrom(steps, names, i, StepDocs(steps, names, i).value)
    decreases |names| - i
  {
    if i < |names| {
      StepDocsNext(steps, names, i);
      var options := SortedOptionDocs(Get(steps, names[i]).value).value;
      StepDocShape(steps, names[i], options);
      StepDocsBuilt(steps, names, i + 1);
      StepsBuiltCons(steps, names, i, StepDocOf(names[i], options), StepDocs(steps, names, i + 1).value);
    }
  }

  /**
   * One step document per name from `i` on: a step is FIXED exactly when it
   * has one option, its own subject list is always empty, and its options
   * follow the sorted option names.
   */
  lemma StepDocsShape(steps: seq<Entry<seq<Entry<Json>>>>, names: seq<string>, i: nat)
    requires i <= |names|
    requires StepDocs(steps, names, i).Ok?
    ensures |StepDocs(steps, names, i).value| == |names| - i
    ensures forall k :: i <= k < |names| ==> StepBuilt(steps, names[k], StepDocs(steps, names, i).value[k - i])
  {
    StepDocsBuilt(steps, names, i);
  }

  /** `track_data["steps"][name]` is missing, or some option of that step is not a dictionary. */
  predicate BadName(steps: seq<Entry<seq<Entry<Json>>>>, name: string) {
    Get(steps, name).None? || BadStep(Get(steps, name).value)
  }

  /** A track's steps fail to build exactly when a name is missing or some option of a step fails. */
  lemma {:induction false} StepDocsCrash(steps: seq<Entry<seq<Entry<Json>>>>, names: seq<string>, i: nat)
    requires i <= |names|
    ensures StepDocs(steps, names, i).Crash? <==> exists k | i <= k < |names| :: BadName(steps, names[k])
    decreases |names| - i
  {
    if i < |names| {
      StepDocsCrashNext(steps, names, i);
      StepDocsCrash(steps, names, i + 1);
      if BadName(steps, names[i]) {
        assert i <= i < |names|;
      } else if exists k | i <= k < |names| :: BadName(steps, names[k]) {
        var k :| i <= k < |names| && BadName(steps, names[k]);
        assert i + 1 <= k;
      }
    }
  }

  lemma StepDocsCrashNext(steps: seq<Entry<seq<Entry<Json>>>>, names: seq<string>, i: nat)
    requires i < |names|
    ensures StepDocs(steps, names, i).Crash? <==> BadName(steps, names[i]) || StepDocs(steps, names, i + 1).Crash?
  {
    var content := Get(steps, names[i]);
    if content.Some? {
      SortedOptionDocsCrash(content.value);
    }
  }

  lemma SortedStepDocsCrash(steps: seq<Entry<seq<Entry<Json>>>>)
    ensures SortedStepDocs(steps).Crash? <==> BadTrack(steps)
  {
    var names := Sort(Keys(steps));
    StepDocsCrash(steps, names, 0);
    if SortedStepDocs(steps).Crash? {
      var k :| 0 <= k < |names| && BadName(steps, names[k]);
      var j := SortedKeyAt(steps, k);
      assert Keys(steps)[j] == names[k];
      assert Get(steps, steps[j].key).Some? && BadStep(Get(steps, steps[j].key).value);
    }
    if BadTrack(steps) {
      var j :| 0 <= j < |steps| && Get(steps, steps[j].key).Some? && BadStep(Get(steps, steps[j].key).value);
      var k := KeySortedAt(steps, j);
      assert Get(steps, names[k]).Some? && BadStep(Get(steps, names[k]).value);
    }
  }

  /**
   * The rebuild fails, leaving the collection empty, exactly when some
   * track has a step holding a value that is not a dictionary.
   */
  lemma {:induction false} TrackDocsCrash(tree: Tree, t: nat)
    requires t <= |tree|
    ensures TrackDocs(tree, t).Crash? <==> exists k | t <= k < |tree| :: BadTrack(tree[k].value.steps)
    decreases |tree| - t
  {
    if t < |tree| {
      SortedStepDocsCrash(tree[t].value.steps);
      TrackDocsCrash(tree, t + 1);
      if BadTrack(tree[t].value.steps) {
        assert TrackDocs(tree, t).Crash?;
      } else if exists k | t <= k < |tree| :: BadTrack(tree[k].value.steps) {
        var k :| t <= k < |tree| && BadTrack(tree[k].value.steps);
        assert t + 1 <= k;
      }
    }
  }

  /** The track `tree[k]` builds into the document `d`, numbered k + 1. */
  predicate TrackBuilt(tree: Tree, k: nat, d: TrackDoc)
    requires k < |tree|
  {
    var steps := tree[k].value.steps;
    && d.title == tree[k].key
    && d.description == tree[k].value.description
    && d.order == k + 1
    && |d.steps| == |steps|
    && (forall j :: 0 <= j < |d.steps| ==> StepBuilt(steps, Sort(Keys(steps))[j], d.steps[j]))
  }

  /** A track list that was built is the first track's document followed by the rest. */
  lemma TrackDocsNext(tree: Tree, t: nat)
    requires t < |tree| && TrackDocs(tree, t).Ok?
    ensures SortedStepDocs(tree[t].value.steps).Ok? && TrackDocs(tree, t + 1).Ok?
    ensures TrackDocs(tree, t).value
      == [TrackDoc(tree[t].key, tree[t].value.description, t + 1, SortedStepDocs(tree[t].value.steps).value)] + TrackDocs(tree, t + 1).value
  {
  }

  lemma TrackDocHead(tree: Tree, t: nat)
    requires t < |tree| && SortedStepDocs(tree[t].value.steps).Ok?
    ensures TrackBuilt(tree, t, TrackDoc(tree[t].key, tree[t].value.description, t + 1, SortedStepDocs(tree[t].value.steps).value))
  {
    var steps := tree[t].value.steps;
    StepDocsShape(steps, Sort(Keys(steps)), 0);
  }

  /** `docs` holds one built document per track from `t` on. */
  predicate TracksBuiltFrom(tree: Tree, t: nat, docs: seq<TrackDoc>)
    requires t <= |tree|
  {
    && |docs| == |tree| - t
    && forall k :: 0 <= k < |tree| - t ==> TrackBuilt(tree, t + k, docs[k])
  }

  lemma TracksBuiltCons(tree: Tree, t: nat, head: TrackDoc, rest: seq<TrackDoc>)
    requires t < |tree|
    requires TrackBuilt(tree, t, head) && TracksBuiltFrom(tree, t + 1, rest)
    ensures TracksBuiltFrom(tree, t, [head] + rest)
  {
    forall k | 1 <= k < |tree| - t
      ensures TrackBuilt(tree, t + k, ([head] + rest)[k])
    {
      assert ([head] + rest)[k] == rest[k - 1];
      assert TrackBuilt(tree, (t + 1) + (k - 1), rest[k - 1]);
    }
  }

  lemma {:induction false} TrackDocsBuilt(tree: Tree, t: nat)
    requires t <= |tree|
    requires TrackDocs(tree, t).Ok?
    ensures TracksBuiltFrom(tree, t, TrackDocs(tree, t).value)
    decreases |tree| - t
  {
    if t < |tree| {
      TrackDocsNext(tree, t);
      TrackDocHead(tree, t);
      TrackDocsBuilt(tree, t + 1);
      var head := TrackDoc(tree[t].key, tree[t].value.description, t + 1, SortedStepDocs(tree[t].value.steps).value);
      TracksBuiltCons(tree, t, head, TrackDocs(tree, t + 1).value);
    }
  }

  /**
   * One document per track from `t` on, in dictionary order, the k-th track
   * (from 0) numbered k + 1, each holding the track's title, description
   * and its steps in sorted name order.
   */
  lemma TrackDocsShape(tree: Tree, t: nat)
    requires t <= |tree|
    requires TrackDocs(tree, t).Ok?
    ensures |TrackDocs(tree, t).value| == |tree| - t
    ensures forall k :: 0 <= k < |tree| - t ==> TrackBuilt(tree, t + k, TrackDocs(tree, t).value[k])
  {
    TrackDocsBuilt(tree, t);
  }
}
