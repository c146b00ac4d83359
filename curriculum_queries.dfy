/**
 * Read-only queries over the curriculum tree: the subject enumeration of
 * check_subjects.py and the track tools of tools_functions.py
 * (`recommend_ai_track`, `perform_search_similarity`, `get_roadmap_details`,
 * `get_subject_details`).
 */
module CurriculumQueries {
  import opened Wrappers
  import opened Curriculum
  import opened Text

  // ===============================================================
  // Subject enumeration (check_subjects.py, list_subjects)
  // ===============================================================

  /** The subjects found among the entries of an option group, in order. */
  function GroupSubjects(fields: seq<Entry<Json>>): seq<string> {
    if fields == [] then []
    else
      var last := fields[|fields| - 1];
      GroupSubjects(fields[..|fields| - 1]) + (if IsSubject(last.value) then [last.key] else [])
  }

  /** What one step entry contributes: itself if a subject, its subject children if a group. */
  function EntrySubjects(e: Entry<Json>): seq<string> {
    if !e.value.JObj? then []
    else if HasKey(e.value.fields, "Lv1") then [e.key]
    else GroupSubjects(e.value.fields)
  }

  function StepSubjects(step: seq<Entry<Json>>): seq<string> {
    if step == [] then [] else StepSubjects(step[..|step| - 1]) + EntrySubjects(step[|step| - 1])
  }

  function TrackSubjects(steps: seq<Entry<seq<Entry<Json>>>>): seq<string> {
    if steps == [] then [] else TrackSubjects(steps[..|steps| - 1]) + StepSubjects(steps[|steps| - 1].value)
  }

  function TreeSubjects(tree: Tree): seq<string> {
    if tree == [] then [] else TreeSubjects(tree[..|tree| - 1]) + TrackSubjects(tree[|tree| - 1].value.steps)
  }

  /** The innermost loop of `list_subjects`: subjects among a group's children. */
  method CollectGroup(fields: seq<Entry<Json>>) returns (subjects: seq<string>)
    ensures subjects == GroupSubjects(fields)
  {
    subjects := [];
    var j := 0;
    while j < |fields|
      invariant 0 <= j <= |fields|
      invariant subjects == GroupSubjects(fields[..j])
    {
      if IsSubject(fields[j].value) {
        subjects := subjects + [fields[j].key];
      }
      assert fields[..j + 1][..j] == fields[..j];
      j := j + 1;
    }
    assert fields[..j] == fields;
  }

  /** The loop over one step's keys: a subject is listed, a group is searched one level down. */
  method CollectStep(step: seq<Entry<Json>>) returns (subjects: seq<string>)
    ensures subjects == StepSubjects(step)
  {
    subjects := [];
    var k := 0;
    while k < |step|
      invariant 0 <= k <= |step|
      invariant subjects == StepSubjects(step[..k])
    {
      var key, val := step[k].key, step[k].value;
      if val.JObj? {
        if HasKey(val.fields, "Lv1") {
          subjects := subjects + [key];
        } else {
          var inner := CollectGroup(val.fields);
          subjects := subjects + inner;
        }
      }
      assert step[..k + 1][..k] == step[..k];
      k := k + 1;
    }
    assert step[..k] == step;
  }

  method CollectTrack(steps: seq<Entry<seq<Entry<Json>>>>) returns (subjects: seq<string>)
    ensures subjects == TrackSubjects(steps)
  {
    subjects := [];
    var s := 0;
    while s < |steps|
      invariant 0 <= s <= |steps|
      invariant subjects == TrackSubjects(steps[..s])
    {
      var inner := CollectStep(steps[s].value);
      subjects := subjects + inner;
      assert steps[..s + 1][..s] == steps[..s];
      s := s + 1;
    }
    assert steps[..s] == steps;
  }

  /** `list_subjects`: walks track -> step -> key -> sub-key and collects subject names. */
  method ListSubjects(tree: Tree) returns (subjects: seq<string>)
    ensures subjects == TreeSubjects(tree)
  {
    subjects := [];
    var t := 0;
    while t < |tree|
      invariant 0 <= t <= |tree|
      invariant subjects == TreeSubjects(tree[..t])
    {
      var inner := CollectTrack(tree[t].value.steps);
      subjects := subjects + inner;
      assert tree[..t + 1][..t] == tree[..t];
      t := t + 1;
    }
    assert tree[..t] == tree;
  }

  /** A group entry holds a subject named `x` among its children. */
  predicate GroupHas(fields: seq<Entry<Json>>, x: string) {
    exists j | 0 <= j < |fields| :: IsSubject(fields[j].value) && fields[j].key == x
  }

  /**
   * A step entry contributes `x`: it is a subject named `x`, or a dictionary
   * without "Lv1" holding a subject named `x`; anything that is not a
   * dictionary contributes nothing.
   */
  predicate Contributes(e: Entry<Json>, x: string) {
    && e.value.JObj?
    && (if HasKey(e.value.fields, "Lv1") then e.key == x else GroupHas(e.value.fields, x))
  }

  lemma {:induction false} GroupSubjectsIff(fields: seq<Entry<Json>>, x: string)
    ensures x in GroupSubjects(fields) <==> GroupHas(fields, x)
  {
    if fields != [] {
      var init := fields[..|fields| - 1];
      GroupSubjectsIff(init, x);
      if GroupHas(fields, x) && !GroupHas(init, x) {
        var j :| 0 <= j < |fields| && IsSubject(fields[j].value) && fields[j].key == x;
        assert j == |fields| - 1;
      }
      if GroupHas(init, x) {
        var j :| 0 <= j < |init| && IsSubject(init[j].value) && init[j].key == x;
        assert fields[j] == init[j];
      }
    }
  }

  /** Some entry of the step contributes `x`. */
  predicate StepHas(step: seq<Entry<Json>>, x: string) {
    exists k | 0 <= k < |step| :: Contributes(step[k], x)
  }

  lemma StepHasLast(step: seq<Entry<Json>>, x: string)
    requires step != []
    ensures StepHas(step, x) <==> StepHas(step[..|step| - 1], x) || Contributes(step[|step| - 1], x)
  {
    var init := step[..|step| - 1];
    if StepHas(init, x) {
      var k :| 0 <= k < |init| && Contributes(init[k], x);
      assert step[k] == init[k];
    }
    if StepHas(step, x) {
      var k :| 0 <= k < |step| && Contributes(step[k], x);
      if k < |init| { assert init[k] == step[k]; }
    }
  }

  lemma EntrySubjectsIff(e: Entry<Json>, x: string)
    ensures x in EntrySubjects(e) <==> Contributes(e, x)
  {
    if e.value.JObj? && !HasKey(e.value.fields, "Lv1") {
      GroupSubjectsIff(e.value.fields, x);
    }
  }

  lemma {:induction false} StepSubjectsHas(step: seq<Entry<Json>>, x: string)
    ensures x in StepSubjects(step) <==> StepHas(step, x)
  {
    if step != [] {
      var init, last := step[..|step| - 1], step[|step| - 1];
      assert StepSubjects(step) == StepSubjects(init) + EntrySubjects(last);
      StepSubjectsHas(init, x);
      EntrySubjectsIff(last, x);
      StepHasLast(step, x);
    }
  }

  /** A name is listed for a step exactly when one of the step's entries contributes it. */
  lemma StepSubjectsIff(step: seq<Entry<Json>>, x: string)
    ensures x in StepSubjects(step) <==> exists k | 0 <= k < |step| :: Contributes(step[k], x)
  {
    StepSubjectsHas(step, x);
  }

  // ===============================================================
  // Roadmap of one track (tools_functions.py, get_roadmap_details)
  // ===============================================================

  /** One line of a roadmap step: a subject, the group it came from (if any) and its importance. */
  datatype SubjectInfo = SubjectInfo(subject: string, category: Option<string>, importance: string)

  datatype Roadmap = Roadmap(track: string, description: string, roadmap: seq<Entry<seq<SubjectInfo>>>, note: string)

  datatype RoadmapReply = RoadmapFound(found: Roadmap) | RoadmapMissing(error: string)

  const RoadmapNote := "Use 'get_techtree_detail' for specific subject details."

  /** The subjects of a group, each tagged with the group's name and "Medium" importance. */
  function GroupInfos(category: string, fields: seq<Entry<Json>>): seq<SubjectInfo> {
    if fields == [] then []
    else
      var last := fields[|fields| - 1];
      GroupInfos(category, fields[..|fields| - 1])
        + (if IsSubject(last.value) then [SubjectInfo(last.key, Some(category), "Medium")] else [])
  }

  /**
   * One key of a step: a subject is listed with "High" importance; any other
   * value is treated as a group and its `items()` are taken, which fails for
   * a value that is not a dictionary.
   */
  function EntryInfos(e: Entry<Json>): Result<seq<SubjectInfo>> {
    if IsSubject(e.value) then Ok([SubjectInfo(e.key, None, "High")])
    else if !e.value.JObj? then Crash(NoItems)
    else Ok(GroupInfos(e.key, e.value.fields))
  }

  function StepInfos(step: seq<Entry<Json>>): Result<seq<SubjectInfo>> {
    if step == [] then Ok([])
    else
      match StepInfos(step[..|step| - 1])
      case Crash(e) => Crash(e)
      case Ok(front) =>
        match EntryInfos(step[|step| - 1])
        case Crash(e) => Crash(e)
        case Ok(back) => Ok(front + back)
  }

  function RoadmapOf(steps: seq<Entry<seq<Entry<Json>>>>): Result<seq<Entry<seq<SubjectInfo>>>> {
    if steps == [] then Ok([])
    else
      var last := steps[|steps| - 1];
      match RoadmapOf(steps[..|steps| - 1])
      case Crash(e) => Crash(e)
      case Ok(front) =>
        match StepInfos(last.value)
        case Crash(e) => Crash(e)
        case Ok(infos) => Ok(front + [Entry(last.key, infos)])
  }

  /** The whole reply of `get_roadmap_details`; an unknown track is an error reply, not a failure. */
  function RoadmapDetails(tree: Tree, trackName: string): (r: Result<RoadmapReply>)
    ensures (r.Ok? && r.value.RoadmapMissing?) <==> !HasKey(tree, trackName)
    ensures r.Ok? && r.value.RoadmapFound? ==> r.value.found.track == trackName
  {
    match Get(tree, trackName)
    case None => Ok(RoadmapMissing("Track '" + trackName + "' not found. Please provide exact track name."))
    case Some(data) =>
      match RoadmapOf(data.steps)
      case Crash(e) => Crash(e)
      case Ok(rm) => Ok(RoadmapFound(Roadmap(trackName, data.description, rm, RoadmapNote)))
  }

  lemma {:induction false} StepInfosCrashPersists(step: seq<Entry<Json>>, k: nat)
    requires k <= |step|
    requires StepInfos(step[..k]).Crash?
    ensures StepInfos(step) == Crash(NoItems)
    decreases |step| - k
  {
    if k == |step| {
      assert step[..k] == step;
      StepInfosCrashMessage(step);
    } else {
      assert step[..k + 1][..k] == step[..k];
      StepInfosCrashPersists(step, k + 1);
    }
  }

  lemma {:induction false} StepInfosCrashMessage(step: seq<Entry<Json>>)
    ensures StepInfos(step).Crash? ==> StepInfos(step) == Crash(NoItems)
  {
    if step != [] {
      StepInfosCrashMessage(step[..|step| - 1]);
    }
  }

  lemma {:induction false} RoadmapCrashPersists(steps: seq<Entry<seq<Entry<Json>>>>, k: nat)
    requires k <= |steps|
    requires RoadmapOf(steps[..k]).Crash?
    ensures RoadmapOf(steps) == Crash(NoItems)
    decreases |steps| - k
  {
    if k == |steps| {
      assert steps[..k] == steps;
      RoadmapCrashMessage(steps);
    } else {
      assert steps[..k + 1][..k] == steps[..k];
      RoadmapCrashPersists(steps, k + 1);
    }
  }

  lemma {:induction false} RoadmapCrashMessage(steps: seq<Entry<seq<Entry<Json>>>>)
    ensures RoadmapOf(steps).Crash? ==> RoadmapOf(steps) == Crash(NoItems)
  {
    if steps != [] {
      RoadmapCrashMessage(steps[..|steps| - 1]);
      StepInfosCrashMessage(steps[|steps| - 1].value);
    }
  }

  method CollectGroupInfos(category: string, fields: seq<Entry<Json>>) returns (infos: seq<SubjectInfo>)
    ensures infos == GroupInfos(category, fields)
  {
    infos := [];
    var j := 0;
    while j < |fields|
      invariant 0 <= j <= |fields|
      invariant infos == GroupInfos(category, fields[..j])
    {
      if IsSubject(fields[j].value) {
        infos := infos + [SubjectInfo(fields[j].key, Some(category), "Medium")];
      }
      assert fields[..j + 1][..j] == fields[..j];
      j := j + 1;
    }
    assert fields[..j] == fields;
  }

  /** The loop over one step's keys; stops with the exception at the first non-dictionary group. */
  method CollectStepInfos(step: seq<Entry<Json>>) returns (r: Result<seq<SubjectInfo>>)
    ensures r == StepInfos(step)
  {
    var infos := [];
    var k := 0;
    while k < |step|
      invariant 0 <= k <= |step|
      invariant StepInfos(step[..k]) == Ok(infos)
    {
      var key, val := step[k].key, step[k].value;
      ghost var prefix := step[..k + 1];
      assert prefix[..k] == step[..k] && prefix[k] == step[k];
      if IsSubject(val) {
        infos := infos + [SubjectInfo(key, None, "High")];
      } else if !val.JObj? {
        assert EntryInfos(step[k]).Crash?;
        assert StepInfos(prefix).Crash?;
        StepInfosCrashPersists(step, k + 1);
        return Crash(NoItems);
      } else {
        var inner := CollectGroupInfos(key, val.fields);
        assert EntryInfos(step[k]) == Ok(inner);
        infos := infos + inner;
      }
      k := k + 1;
    }
    assert step[..k] == step;
    r := Ok(infos);
  }

  /** `get_roadmap_details`: the track's steps in order, each with its subjects. */
  method GetRoadmapDetails(tree: Tree, trackName: string) returns (r: Result<RoadmapReply>)
    ensures r == RoadmapDetails(tree, trackName)
  {
    var found := Get(tree, trackName);
    if found.None? {
      return Ok(RoadmapMissing("Track '" + trackName + "' not found. Please provide exact track name."));
    }
    var data := found.value;
    var steps := data.steps;
    var structure := [];
    var s := 0;
    while s < |steps|
      invariant 0 <= s <= |steps|
      invariant RoadmapOf(steps[..s]) == Ok(structure)
    {
      assert steps[..s + 1][..s] == steps[..s];
      var infos := CollectStepInfos(steps[s].value);
      if infos.Crash? {
        StepInfosCrashMessage(steps[s].value);
        RoadmapCrashPersists(steps, s + 1);
        return Crash(infos.error);
      }
      structure := structure + [Entry(steps[s].key, infos.value)];
      s := s + 1;
    }
    assert steps[..s] == steps;
    r := Ok(RoadmapFound(Roadmap(trackName, data.description, structure, RoadmapNote)));
  }

  /** The subject names of a list of roadmap lines. */
  function Names(infos: seq<SubjectInfo>): (r: seq<string>)
    ensures |r| == |infos| && forall i :: 0 <= i < |infos| ==> r[i] == infos[i].subject
  {
    seq(|infos|, i requires 0 <= i < |infos| => infos[i].subject)
  }

  /** Every line is either a top-level "High" subject or a grouped "Medium" one. */
  predicate WellRanked(infos: seq<SubjectInfo>) {
    forall i :: 0 <= i < |infos| ==>
      (infos[i].category.None? && infos[i].importance == "High")
      || (infos[i].category.Some? && infos[i].importance == "Medium")
  }

  /** A step fails exactly when one of its keys holds something other than a dictionary. */
  lemma {:induction false} StepInfosCrashIff(step: seq<Entry<Json>>)
    ensures StepInfos(step).Crash? <==> exists k | 0 <= k < |step| :: !step[k].value.JObj?
  {
    if step != [] {
      var init := step[..|step| - 1];
      StepInfosCrashIff(init);
      if exists k | 0 <= k < |init| :: !init[k].value.JObj? {
        var k :| 0 <= k < |init| && !init[k].value.JObj?;
        assert step[k] == init[k];
      }
      if exists k | 0 <= k < |step| :: !step[k].value.JObj? {
        var k :| 0 <= k < |step| && !step[k].value.JObj?;
        if k < |init| { assert init[k] == step[k]; }
      }
    }
  }

  lemma {:induction false} GroupInfosAgree(category: string, fields: seq<Entry<Json>>)
    ensures Names(GroupInfos(category, fields)) == GroupSubjects(fields)
    ensures forall i :: 0 <= i < |GroupInfos(category, fields)| ==>
      GroupInfos(category, fields)[i].category == Some(category) && GroupInfos(category, fields)[i].importance == "Medium"
  {
    if fields != [] {
      GroupInfosAgree(category, fields[..|fields| - 1]);
    }
  }

  lemma NamesConcat(a: seq<SubjectInfo>, b: seq<SubjectInfo>)
    ensures Names(a + b) == Names(a) + Names(b)
    ensures WellRanked(a) && WellRanked(b) ==> WellRanked(a + b)
  {
    assert forall i :: 0 <= i < |b| ==> (a + b)[|a| + i] == b[i];
  }

  lemma EntryInfosAgree(e: Entry<Json>)
    requires EntryInfos(e).Ok?
    ensures Names(EntryInfos(e).value) == EntrySubjects(e)
    ensures WellRanked(EntryInfos(e).value)
  {
    if !IsSubject(e.value) {
      GroupInfosAgree(e.key, e.value.fields);
    }
  }

  /**
   * When a step's roadmap is built, it names exactly the subjects the
   * `list_subjects` walk finds in that step, in the same order, and every
   * line is ranked by where it was found.
   */
  lemma {:induction false} StepInfosAgree(step: seq<Entry<Json>>)
    requires StepInfos(step).Ok?
    ensures Names(StepInfos(step).value) == StepSubjects(step)
    ensures WellRanked(StepInfos(step).value)
  {
    if step != [] {
      var init, last := step[..|step| - 1], step[|step| - 1];
      StepInfosAgree(init);
      EntryInfosAgree(last);
      NamesConcat(StepInfos(init).value, EntryInfos(last).value);
    }
  }

  /** `rm` has one entry per step, under the step's name, holding that step's roadmap lines. */
  predicate FollowsSteps(rm: seq<Entry<seq<SubjectInfo>>>, steps: seq<Entry<seq<Entry<Json>>>>) {
    && |rm| == |steps|
    && forall i :: 0 <= i < |steps| ==> rm[i].key == steps[i].key && StepInfos(steps[i].value) == Ok(rm[i].value)
  }

  /** A roadmap that was built is the roadmap of all steps but the last, then the last step's entry. */
  lemma RoadmapLast(steps: seq<Entry<seq<Entry<Json>>>>)
    requires steps != [] && RoadmapOf(steps).Ok?
    ensures RoadmapOf(steps[..|steps| - 1]).Ok? && StepInfos(steps[|steps| - 1].value).Ok?
    ensures RoadmapOf(steps).value
      == RoadmapOf(steps[..|steps| - 1]).value + [Entry(steps[|steps| - 1].key, StepInfos(steps[|steps| - 1].value).value)]
  {
    var init, last := steps[..|steps| - 1], steps[|steps| - 1];
    var front, infos := RoadmapOf(init), StepInfos(last.value);
    if front.Crash? || infos.Crash? {
      assert false;
    }
    assert RoadmapOf(steps) == Ok(front.value + [Entry(last.key, infos.value)]);
  }

  lemma FollowsStepsAppend(front: seq<Entry<seq<SubjectInfo>>>, init: seq<Entry<seq<Entry<Json>>>>, e: Entry<seq<SubjectInfo>>, last: Entry<seq<Entry<Json>>>)
    requires FollowsSteps(front, init)
    requires e.key == last.key && StepInfos(last.value) == Ok(e.value)
    ensures FollowsSteps(front + [e], init + [last])
  {
    var rm, steps := front + [e], init + [last];
    forall i | 0 <= i < |steps|
      ensures rm[i].key == steps[i].key && StepInfos(steps[i].value) == Ok(rm[i].value)
    {
      if i < |init| {
        assert steps[i] == init[i] && rm[i] == front[i];
      }
    }
  }

  /** A built roadmap has one entry per step, in the track's step order. */
  lemma {:induction false} RoadmapFollowsSteps(steps: seq<Entry<seq<Entry<Json>>>>)
    requires RoadmapOf(steps).Ok?
    ensures Keys(RoadmapOf(steps).value) == Keys(steps)
    ensures forall i :: 0 <= i < |steps| ==> StepInfos(steps[i].value) == Ok(RoadmapOf(steps).value[i].value)
  {
    RoadmapFollows(steps);
    var rm := RoadmapOf(steps).value;
    assert forall i :: 0 <= i < |steps| ==> Keys(rm)[i] == Keys(steps)[i];
  }

  lemma {:induction false} RoadmapFollows(steps: seq<Entry<seq<Entry<Json>>>>)
    requires RoadmapOf(steps).Ok?
    ensures FollowsSteps(RoadmapOf(steps).value, steps)
  {
    if steps != [] {
      var init, last := steps[..|steps| - 1], steps[|steps| - 1];
      RoadmapLast(steps);
      RoadmapFollows(init);
      FollowsStepsAppend(RoadmapOf(init).value, init, Entry(last.key, StepInfos(last.value).value), last);
      assert init + [last] == steps;
    }
  }

  // ===============================================================
  // Subject lookup (tools_functions.py, get_subject_details)
  // ===============================================================

  datatype SubjectReply =
    | SubjectFound(subject: string, track: string, category: Option<string>, details: Json)
    | SubjectMissing(error: string)

  /** First child of a group that is a dictionary whose lower-cased name is the query. */
  function FindInGroup(fields: seq<Entry<Json>>, query: string, track: string, category: string): Option<SubjectReply> {
    if fields == [] then None
    else if fields[0].value.JObj? && Lower(fields[0].key) == query then
      Some(SubjectFound(fields[0].key, track, Some(category), fields[0].value))
    else FindInGroup(fields[1..], query, track, category)
  }

  /**
   * The first hit in a step: non-dictionary values are skipped; a key that
   * matches wins before its own children are looked at.
   */
  function FindInStep(step: seq<Entry<Json>>, query: string, track: string): Option<SubjectReply> {
    if step == [] then None
    else
      var e := step[0];
      if !e.value.JObj? then FindInStep(step[1..], query, track)
      else if Lower(e.key) == query then Some(SubjectFound(e.key, track, None, e.value))
      else match FindInGroup(e.value.fields, query, track, e.key)
        case Some(hit) => Some(hit)
        case None => FindInStep(step[1..], query, track)
  }

  function FindInTrack(steps: seq<Entry<seq<Entry<Json>>>>, query: string, track: string): Option<SubjectReply> {
    if steps == [] then None
    else match FindInStep(steps[0].value, query, track)
      case Some(hit) => Some(hit)
      case None => FindInTrack(steps[1..], query, track)
  }

  function FindInTree(tree: Tree, query: string): Option<SubjectReply> {
    if tree == [] then None
    else match FindInTrack(tree[0].value.steps, query, tree[0].key)
      case Some(hit) => Some(hit)
      case None => FindInTree(tree[1..], query)
  }

  /** The reply of `get_subject_details`: the query is lower-cased, then stripped. */
  function SubjectDetails(tree: Tree, subjectName: string): SubjectReply {
    match FindInTree(tree, Strip(Lower(subjectName)))
    case Some(hit) => hit
    case None => SubjectMissing("Subject '" + subjectName + "' not found. Please check the exact name from the roadmap.")
  }

  method SearchGroup(fields: seq<Entry<Json>>, query: string, track: string, category: string) returns (r: Option<SubjectReply>)
    ensures r == FindInGroup(fields, query, track, category)
  {
    var j := 0;
    while j < |fields|
      invariant 0 <= j <= |fields|
      invariant FindInGroup(fields, query, track, category) == FindInGroup(fields[j..], query, track, category)
    {
      if fields[j].value.JObj? && Lower(fields[j].key) == query {
        return Some(SubjectFound(fields[j].key, track, Some(category), fields[j].value));
      }
      assert fields[j..][1..] == fields[j + 1..];
      j := j + 1;
    }
    r := None;
  }

  method SearchStep(step: seq<Entry<Json>>, query: string, track: string) returns (r: Option<SubjectReply>)
    ensures r == FindInStep(step, query, track)
  {
    var k := 0;
    while k < |step|
      invariant 0 <= k <= |step|
      invariant FindInStep(step, query, track) == FindInStep(step[k..], query, track)
    {
      var key, val := step[k].key, step[k].value;
      assert step[k..][1..] == step[k + 1..];
      if val.JObj? {
        if Lower(key) == query {
          return Some(SubjectFound(key, track, None, val));
        }
        var hit := SearchGroup(val.fields, query, track, key);
        if hit.Some? {
          return hit;
        }
      }
      k := k + 1;
    }
    r := None;
  }

  method SearchTrack(steps: seq<Entry<seq<Entry<Json>>>>, query: string, track: string) returns (r: Option<SubjectReply>)
    ensures r == FindInTrack(steps, query, track)
  {
    var s := 0;
    while s < |steps|
      invariant 0 <= s <= |steps|
      invariant FindInTrack(steps, query, track) == FindInTrack(steps[s..], query, track)
    {
      assert steps[s..][1..] == steps[s + 1..];
      var hit := SearchStep(steps[s].value, query, track);
      if hit.Some? {
        return hit;
      }
      s := s + 1;
    }
    r := None;
  }

  /** `get_subject_details`: the first track, step and key (or group child) whose name matches. */
  method GetSubjectDetails(tree: Tree, subjectName: string) returns (r: SubjectReply)
    ensures r == SubjectDetails(tree, subjectName)
  {
    var query := Strip(Lower(subjectName));
    var t := 0;
    while t < |tree|
      invariant 0 <= t <= |tree|
      invariant FindInTree(tree, query) == FindInTree(tree[t..], query)
    {
      assert tree[t..][1..] == tree[t + 1..];
      var hit := SearchTrack(tree[t].value.steps, query, tree[t].key);
      if hit.Some? {
        return hit.value;
      }
      t := t + 1;
    }
    r := SubjectMissing("Subject '" + subjectName + "' not found. Please check the exact name from the roadmap.");
  }

  /** A step entry answers the query: it is a dictionary named like the query, or holds such a child. */
  predicate EntryMatches(e: Entry<Json>, query: string) {
    && e.value.JObj?
    && (Lower(e.key) == query || GroupMatches(e.value.fields, query))
  }

  predicate GroupMatches(fields: seq<Entry<Json>>, query: string) {
    exists j | 0 <= j < |fields| :: fields[j].value.JObj? && Lower(fields[j].key) == query
  }

  predicate StepMatches(step: seq<Entry<Json>>, query: string) {
    exists k | 0 <= k < |step| :: EntryMatches(step[k], query)
  }

  predicate TrackMatches(steps: seq<Entry<seq<Entry<Json>>>>, query: string) {
    exists s | 0 <= s < |steps| :: StepMatches(steps[s].value, query)
  }

  predicate TreeMatches(tree: Tree, query: string) {
    exists t | 0 <= t < |tree| :: TrackMatches(tree[t].value.steps, query)
  }

  /** What every hit satisfies: its name matches the query and it is a dictionary. */
  predicate Hit(r: SubjectReply, query: string, track: string) {
    r.SubjectFound? && Lower(r.subject) == query && r.details.JObj? && r.track == track
  }

  /**
   * Where a hit sits in a step: with no category it is one of the step's
   * own entries; with a category it is a child of the step's dictionary
   * under that key.
   */
  predicate PlacedInStep(r: SubjectReply, step: seq<Entry<Json>>)
    requires r.SubjectFound?
  {
    exists k | 0 <= k < |step| ::
      if r.category.None? then step[k] == Entry(r.subject, r.details)
      else step[k].key == r.category.value && step[k].value.JObj? && Entry(r.subject, r.details) in step[k].value.fields
  }

  predicate PlacedInTrack(r: SubjectReply, steps: seq<Entry<seq<Entry<Json>>>>)
    requires r.SubjectFound?
  {
    exists s | 0 <= s < |steps| :: PlacedInStep(r, steps[s].value)
  }

  /** A hit sits in a step of the track it names. */
  predicate PlacedInTree(r: SubjectReply, tree: Tree)
    requires r.SubjectFound?
  {
    exists t | 0 <= t < |tree| :: tree[t].key == r.track && PlacedInTrack(r, tree[t].value.steps)
  }

  lemma {:induction false} FindInGroupCorrect(fields: seq<Entry<Json>>, query: string, track: string, category: string)
    ensures FindInGroup(fields, query, track, category).None? <==> !GroupMatches(fields, query)
    ensures FindInGroup(fields, query, track, category).Some? ==>
      && Hit(FindInGroup(fields, query, track, category).value, query, track)
      && FindInGroup(fields, query, track, category).value.category == Some(category)
      && Entry(FindInGroup(fields, query, track, category).value.subject,
               FindInGroup(fields, query, track, category).value.details) in fields
  {
    if fields != [] {
      FindInGroupCorrect(fields[1..], query, track, category);
      if GroupMatches(fields[1..], query) {
        var j :| 0 <= j < |fields[1..]| && fields[1..][j].value.JObj? && Lower(fields[1..][j].key) == query;
        assert fields[j + 1] == fields[1..][j];
      }
      if GroupMatches(fields, query) && !(fields[0].value.JObj? && Lower(fields[0].key) == query) {
        var j :| 0 <= j < |fields| && fields[j].value.JObj? && Lower(fields[j].key) == query;
        assert fields[1..][j - 1] == fields[j];
      }
    }
  }

  lemma StepMatchesCons(step: seq<Entry<Json>>, query: string)
    requires step != []
    ensures StepMatches(step, query) <==> EntryMatches(step[0], query) || StepMatches(step[1..], query)
  {
    if StepMatches(step[1..], query) {
      var k :| 0 <= k < |step[1..]| && EntryMatches(step[1..][k], query);
      assert step[k + 1] == step[1..][k];
    }
    if StepMatches(step, query) && !EntryMatches(step[0], query) {
      var k :| 0 <= k < |step| && EntryMatches(step[k], query);
      assert step[1..][k - 1] == step[k];
    }
  }

  lemma PlacedInStepCons(r: SubjectReply, step: seq<Entry<Json>>)
    requires step != [] && r.SubjectFound? && PlacedInStep(r, step[1..])
    ensures PlacedInStep(r, step)
  {
    var k :| 0 <= k < |step[1..]| && (if r.category.None? then step[1..][k] == Entry(r.subject, r.details)
      else step[1..][k].key == r.category.value && step[1..][k].value.JObj? && Entry(r.subject, r.details) in step[1..][k].value.fields);
    assert step[k + 1] == step[1..][k];
  }

  /** What the first entry of a step yields, when it is a dictionary. */
  lemma FindInStepHead(step: seq<Entry<Json>>, query: string, track: string)
    requires step != [] && step[0].value.JObj?
    requires Lower(step[0].key) == query || FindInGroup(step[0].value.fields, query, track, step[0].key).Some?
    ensures FindInStep(step, query, track).Some?
    ensures Hit(FindInStep(step, query, track).value, query, track) && PlacedInStep(FindInStep(step, query, track).value, step)
  {
    var e := step[0];
    FindInGroupCorrect(e.value.fields, query, track, e.key);
    var r := FindInStep(step, query, track).value;
    if Lower(e.key) == query {
      assert step[0] == Entry(r.subject, r.details);
    } else {
      assert step[0].key == r.category.value && step[0].value.JObj? && Entry(r.subject, r.details) in step[0].value.fields;
    }
  }

  /** A step yields a hit iff one of its entries matches; the hit is placed in the step as its category says. */
  lemma {:induction false} FindInStepCorrect(step: seq<Entry<Json>>, query: string, track: string)
    ensures FindInStep(step, query, track).None? <==> !StepMatches(step, query)
    ensures FindInStep(step, query, track).Some? ==>
      Hit(FindInStep(step, query, track).value, query, track) && PlacedInStep(FindInStep(step, query, track).value, step)
  {
    if step != [] {
      var e := step[0];
      FindInStepCorrect(step[1..], query, track);
      StepMatchesCons(step, query);
      if e.value.JObj? {
        FindInGroupCorrect(e.value.fields, query, track, e.key);
      }
      if e.value.JObj? && (Lower(e.key) == query || FindInGroup(e.value.fields, query, track, e.key).Some?) {
        FindInStepHead(step, query, track);
      } else {
        assert FindInStep(step, query, track) == FindInStep(step[1..], query, track);
        if FindInStep(step[1..], query, track).Some? {
          PlacedInStepCons(FindInStep(step[1..], query, track).value, step);
        }
      }
    }
  }

  /**
   * The first matching entry of a step decides the category of the hit:
   * none when its own key is the query (even for an option group), the
   * entry's key when only one of its children matches.
   */
  lemma {:induction false} FindInStepCategory(step: seq<Entry<Json>>, query: string, track: string, k: nat)
    requires k < |step| && EntryMatches(step[k], query)
    requires forall i | 0 <= i < k :: !EntryMatches(step[i], query)
    ensures FindInStep(step, query, track).Some? && FindInStep(step, query, track).value.SubjectFound?
    ensures FindInStep(step, query, track).value.category == (if Lower(step[k].key) == query then None else Some(step[k].key))
  {
    var e := step[0];
    if e.value.JObj? {
      FindInGroupCorrect(e.value.fields, query, track, e.key);
    }
    if k > 0 {
      assert !EntryMatches(e, query);
      assert step[1..][k - 1] == step[k];
      forall i | 0 <= i < k - 1 ensures !EntryMatches(step[1..][i], query) {
        assert step[1..][i] == step[i + 1];
      }
      FindInStepCategory(step[1..], query, track, k - 1);
    }
  }

  lemma TrackMatchesCons(steps: seq<Entry<seq<Entry<Json>>>>, query: string)
    requires steps != []
    ensures TrackMatches(steps, query) <==> StepMatches(steps[0].value, query) || TrackMatches(steps[1..], query)
  {
    if TrackMatches(steps[1..], query) {
      var s :| 0 <= s < |steps[1..]| && StepMatches(steps[1..][s].value, query);
      assert steps[s + 1] == steps[1..][s];
    }
    if TrackMatches(steps, query) && !StepMatches(steps[0].value, query) {
      var s :| 0 <= s < |steps| && StepMatches(steps[s].value, query);
      assert steps[1..][s - 1] == steps[s];
    }
  }

  lemma PlacedInTrackCons(r: SubjectReply, steps: seq<Entry<seq<Entry<Json>>>>)
    requires steps != [] && r.SubjectFound?
    requires PlacedInStep(r, steps[0].value) || PlacedInTrack(r, steps[1..])
    ensures PlacedInTrack(r, steps)
  {
    if !PlacedInStep(r, steps[0].value) {
      var s :| 0 <= s < |steps[1..]| && PlacedInStep(r, steps[1..][s].value);
      assert steps[s + 1] == steps[1..][s];
    }
  }

  lemma {:induction false} FindInTrackCorrect(steps: seq<Entry<seq<Entry<Json>>>>, query: string, track: string)
    ensures FindInTrack(steps, query, track).None? <==> !TrackMatches(steps, query)
    ensures FindInTrack(steps, query, track).Some? ==>
      Hit(FindInTrack(steps, query, track).value, query, track) && PlacedInTrack(FindInTrack(steps, query, track).value, steps)
  {
    if steps != [] {
      FindInStepCorrect(steps[0].value, query, track);
      FindInTrackCorrect(steps[1..], query, track);
      TrackMatchesCons(steps, query);
      var first := FindInStep(steps[0].value, query, track);
      if first.Some? {
        assert FindInTrack(steps, query, track) == first;
        PlacedInTrackCons(first.value, steps);
      } else {
        assert FindInTrack(steps, query, track) == FindInTrack(steps[1..], query, track);
        if FindInTrack(steps[1..], query, track).Some? {
          PlacedInTrackCons(FindInTrack(steps[1..], query, track).value, steps);
        }
      }
    }
  }

  lemma TreeMatchesCons(tree: Tree, query: string)
    requires tree != []
    ensures TreeMatches(tree, query) <==> TrackMatches(tree[0].value.steps, query) || TreeMatches(tree[1..], query)
  {
    if TreeMatches(tree[1..], query) {
      var t :| 0 <= t < |tree[1..]| && TrackMatches(tree[1..][t].value.steps, query);
      assert tree[t + 1] == tree[1..][t];
    }
    if TreeMatches(tree, query) && !TrackMatches(tree[0].value.steps, query) {
      var t :| 0 <= t < |tree| && TrackMatches(tree[t].value.steps, query);
      assert tree[1..][t - 1] == tree[t];
    }
  }

  /** A hit placed in the first track, or in a later one, is placed in the tree under a key of the tree. */
  lemma PlacedInTreeCons(r: SubjectReply, tree: Tree)
    requires tree != [] && r.SubjectFound?
    requires (tree[0].key == r.track && PlacedInTrack(r, tree[0].value.steps))
      || (HasKey(tree[1..], r.track) && PlacedInTree(r, tree[1..]))
    ensures HasKey(tree, r.track) && PlacedInTree(r, tree)
  {
    if tree[0].key == r.track && PlacedInTrack(r, tree[0].value.steps) {
      assert Keys(tree)[0] == r.track;
    } else {
      var t :| 0 <= t < |tree[1..]| && tree[1..][t].key == r.track && PlacedInTrack(r, tree[1..][t].value.steps);
      assert tree[t + 1] == tree[1..][t];
      assert Keys(tree)[t + 1] == r.track;
    }
  }

  lemma {:induction false} FindInTreeCorrect(tree: Tree, query: string)
    ensures FindInTree(tree, query).None? <==> !TreeMatches(tree, query)
    ensures FindInTree(tree, query).Some? ==>
      FindInTree(tree, query).value.SubjectFound?
      && Lower(FindInTree(tree, query).value.subject) == query
      && FindInTree(tree, query).value.details.JObj?
      && HasKey(tree, FindInTree(tree, query).value.track)
      && PlacedInTree(FindInTree(tree, query).value, tree)
  {
    if tree != [] {
      FindInTrackCorrect(tree[0].value.steps, query, tree[0].key);
      FindInTreeCorrect(tree[1..], query);
      TreeMatchesCons(tree, query);
      var first := FindInTrack(tree[0].value.steps, query, tree[0].key);
      if first.Some? {
        assert FindInTree(tree, query) == first;
        PlacedInTreeCons(first.value, tree);
      } else {
        assert FindInTree(tree, query) == FindInTree(tree[1..], query);
        if FindInTree(tree[1..], query).Some? {
          PlacedInTreeCons(FindInTree(tree[1..], query).value, tree);
        }
      }
    }
  }

  /**
   * `get_subject_details` answers with an error exactly when no dictionary
   * in any step (or one level inside a step's group) is named like the
   * lower-cased, stripped query; otherwise the answer is such a dictionary,
   * found in a step of the track it names, with no category when it is a
   * step's own entry and the group's key when it sits inside a group.
   */
  lemma SubjectDetailsCorrect(tree: Tree, subjectName: string)
    ensures SubjectDetails(tree, subjectName).SubjectMissing? <==> !TreeMatches(tree, Strip(Lower(subjectName)))
    ensures SubjectDetails(tree, subjectName).SubjectFound? ==>
      Lower(SubjectDetails(tree, subjectName).subject) == Strip(Lower(subjectName))
      && SubjectDetails(tree, subjectName).details.JObj?
      && HasKey(tree, SubjectDetails(tree, subjectName).track)
      && PlacedInTree(SubjectDetails(tree, subjectName), tree)
  {
    FindInTreeCorrect(tree, Strip(Lower(subjectName)));
  }
}
