# AI Tech Tree: a Dafny model of its local logic

AI Tech Tree is a learning platform. It walks a learner through a curriculum tree
(track → step → option group → subject, each subject holding its levels `Lv1`…`Lv3`).
It runs interviews over that tree with a language model, rewards good answers with stars
and levels, and draws the tree for the front end. This project models the parts of the
system that are ordinary code, not model calls:

- **Interview graphs.** There are two LangGraph interview graphs.
  - `Session` holds the shared state record, the partial updates that nodes return and
    LangGraph's merge of those updates. It also holds the nodes whose code the two graphs share.
  - `RouterGraph` models the router-driven graph, with the intent classifier as a parameter.
  - `KeywordGraph` models the keyword-driven graph.
  - Each graph is a set of node functions, an edge function, a run over those edges, and a
    `Thread` class whose `Invoke` method merges the input and runs the nodes in a loop.
- **Skill and star progression** (`Progress`). The users collection is a `UserStore` class
  over a map from id to user.
- **Curriculum queries.**
  - `CurriculumQueries` models listing subjects, the roadmap of a track and the
    case-insensitive subject search.
  - `TrackAdvice` models the similarity arg-max and the track recommendation.
  - `Curriculum` holds the tree and the insertion-ordered dictionaries. `Text` holds string
    utilities, including `_clean_text`. `Sorting` holds `sorted()`.
- **Web search and archive** (`WebSearch`). This covers both copies of the code: keyword
  normalisation, the domain list, the items returned, the summary fallback, and the archive
  merge run by the background thread.
- **Front-end tech-tree graph** (`TechTree`). Node and edge construction in
  `getLayoutedElements`, without the layout engine.
- **Curriculum-to-document sync** (`TrackSync`). `sync_tracks` over a `TrackCollection` class.
- **Chat endpoint** (`AgentChat`). Message-role mapping and the tool-calling loop, bounded
  to five model calls.

Language models, the search service, embeddings and the user service are parameters
(functions), so every property holds for whatever they answer, their local fallbacks
included. A Python exception is the `Crash` case of `Wrappers.Result`. Loops in the
source are `while` loops in methods, each proved equal to a recursive specification
function whose properties are proved as lemmas.

Where the code does something other than what it evidently intends, the model follows the code,
except for the router graph's consultation on an empty history and for `interview_service.py`,
both named below:

- `check_continue_interview` (backend/app/engine/agents/langgraph/src/agent/graph.py:275-282)
  sends the interview to the final report once `question_count` reaches `max_questions`,
  so an interview is meant to stop there. But no node clears `current_question`, and
  `evaluate_answer_node` does not check the limit. So after the final report a further
  answer is still evaluated and counted (`RouterGraph.Invocation`, `KeywordGraph.Invocation`).
- On an empty history `router_node` routes to `consult_node`, which reads `messages[-1]`
  (backend/app/engine/agents/langgraph/src/agent/graph.py:127) and raises IndexError
  (`RouterGraph.EmptyHistoryRaisesAsWritten`, see "## Findings"). The router graph's
  `Step`, `Run`, `Thread.Invoke` and `RunFromRouter` use the corrected consultation,
  `RouterGraph.ConsultReply`, which answers the default prompt instead.
- `interview_service.py` cannot run as written (see "## Left out"). `Progress` models the
  service it evidently intends.
- `check_subjects.py` imports `_load_track_data`, which `tools_functions.py` does not
  define. The listing is modelled on a tree passed in.
- The graph in `graph.py` uses its local mock user service: a star needs a score of at
  least 80 there, against 70 in `interview_service.py`. Both rules are modelled, each
  where it is used.

## Model

| member | source | states |
|---|---|---|
| Text.CleanTextNormalForm | backend/app/mcp/tools_functions.py:66-71 | `_clean_text` gives "" for "". Its result has no newline, tab or carriage return, no leading or trailing space, and never two spaces in a row. |
| Text.CleanTextKeepsWords | backend/app/mcp/tools_functions.py:66-71 | The cleaned text has exactly the whitespace-separated words of the input, in order. |
| Text.CleanTextIdempotent | backend/app/mcp/functions.py:71-78 | Cleaning twice equals cleaning once (the older copy has the same code). |
| Text.StripShape | backend/app/mcp/tools_functions.py:139 | `strip()` is empty iff the text is all whitespace; otherwise it starts and ends with a non-space. |
| Text.SplitJoin | backend/app/mcp/functions.py:78 | Splitting a space-join of words gives back the words. |
| Sorting.Sort | backend/scripts/sync_track_to_db.py:63 | `sorted(keys)` is ascending and has as many keys as its input. |
| Sorting.SortPermutes | backend/scripts/sync_track_to_db.py:71 | Sorting neither loses nor invents a key (same multiset). |
| Sorting.SortedUnique | frontend/v2/src/lib/tracks-parser.ts:59 | Two ascending orders of the same distinct keys are equal. So the front end's `sort()` and the sync script's `sorted()` visit steps in one order whenever they compare keys the same way. They do for keys inside the Basic Multilingual Plane; see "## Left out". |
| Sorting.SortKeepsMembers | backend/scripts/sync_track_to_db.py:65-66 | A sorted key is a key of the dictionary, so subscripting with it never fails. |
| Curriculum.Get | backend/app/mcp/tools_functions.py:361 | `d.get(k)` finds a value iff the key is present. |
| CurriculumQueries.ListSubjects | backend/check_subjects.py:4-16 | The nested loop returns exactly the track → step → key → sub-key walk `TreeSubjects`. |
| CurriculumQueries.CollectTrack | backend/check_subjects.py:8-16 | The loop over a track's steps concatenates the steps' subjects. |
| CurriculumQueries.CollectStep | backend/check_subjects.py:9-16 | The loop over a step's keys equals `StepSubjects`. |
| CurriculumQueries.CollectGroup | backend/check_subjects.py:14-16 | The loop over a group's children equals `GroupSubjects`. |
| CurriculumQueries.GroupSubjectsIff | backend/check_subjects.py:14-16 | A name is listed for a group iff one of its children is a dictionary with "Lv1" under that name. |
| CurriculumQueries.StepSubjectsIff | backend/check_subjects.py:9-16 | A name is listed for a step iff some entry contributes it. That entry is either a subject dictionary under that name, or a dictionary without "Lv1" holding such a subject. Non-dictionaries contribute nothing. |
| CurriculumQueries.RoadmapDetails | backend/app/mcp/tools_functions.py:356-398 | The reply is the error dictionary iff the track name is unknown. A found roadmap names the requested track. |
| CurriculumQueries.GetRoadmapDetails | backend/app/mcp/tools_functions.py:356-398 | The nested loops return `RoadmapDetails`. |
| CurriculumQueries.CollectStepInfos | backend/app/mcp/tools_functions.py:372-391 | The loop over a step's keys returns `StepInfos`, stopping at the exception. |
| CurriculumQueries.CollectGroupInfos | backend/app/mcp/tools_functions.py:383-391 | The loop over a group's children returns `GroupInfos`. |
| CurriculumQueries.StepInfosCrashIff | backend/app/mcp/tools_functions.py:381-383 | A step's roadmap raises iff one of its keys holds a value that is not a dictionary (`.items()` on it). |
| CurriculumQueries.RoadmapCrashMessage | backend/app/mcp/tools_functions.py:383 | A failing roadmap fails with the missing-`items` AttributeError. |
| CurriculumQueries.GroupInfosAgree | backend/app/mcp/tools_functions.py:383-391 | A group's lines name the same subjects as `list_subjects`, each with the group key as category and "Medium" importance. |
| CurriculumQueries.EntryInfosAgree | backend/app/mcp/tools_functions.py:374-391 | One key's lines name the subjects `list_subjects` finds for it. A direct subject is "High" with no category; a grouped one is "Medium" with the group as category. |
| CurriculumQueries.StepInfosAgree | backend/app/mcp/tools_functions.py:369-391 | A built step lists exactly the subjects the `list_subjects` walk finds there, in the same order, each ranked by where it was found. |
| CurriculumQueries.RoadmapFollowsSteps | backend/app/mcp/tools_functions.py:369-370 | A built roadmap has one entry per step, keyed and ordered like the track's steps. |
| CurriculumQueries.GetSubjectDetails | backend/app/mcp/tools_functions.py:400-432 | The nested loop with early return equals `SubjectDetails`. |
| CurriculumQueries.SearchTrack | backend/app/mcp/tools_functions.py:409-430 | The loop over a track's steps equals `FindInTrack`. |
| CurriculumQueries.SearchStep | backend/app/mcp/tools_functions.py:411-430 | The loop over a step's keys equals `FindInStep`. |
| CurriculumQueries.SearchGroup | backend/app/mcp/tools_functions.py:423-430 | The loop over a group's children equals `FindInGroup`. |
| CurriculumQueries.FindInGroupCorrect | backend/app/mcp/tools_functions.py:423-430 | A group yields a hit iff a dictionary child is named like the query. The hit carries the group as its category. |
| CurriculumQueries.FindInStepCorrect | backend/app/mcp/tools_functions.py:411-430 | A step yields a hit iff some dictionary key, or a dictionary child of one, matches the query. A hit is the step's own entry when it has no category, and otherwise a child of the entry named by its category. |
| CurriculumQueries.FindInStepCategory | backend/app/mcp/tools_functions.py:411-430 | The first matching entry of a step decides the hit's category. It is none when the entry's own key is the query, even for an option group, and the entry's key when only one of its children matches. |
| CurriculumQueries.FindInTrackCorrect | backend/app/mcp/tools_functions.py:409-430 | A track yields a hit iff one of its steps does. The hit sits in one of the track's steps. |
| CurriculumQueries.FindInTreeCorrect | backend/app/mcp/tools_functions.py:408-431 | The tree yields a hit iff some track does. The hit is a dictionary whose lower-cased name is the query, found in a step of the track it names. |
| CurriculumQueries.SubjectDetailsCorrect | backend/app/mcp/tools_functions.py:405-432 | `get_subject_details` answers with an error iff nothing is named like the lower-cased, stripped query. Otherwise it answers with such a dictionary, found in a step of the track it names. The category is none for a step's own entry and the group key for a group's child. |
| TrackAdvice.BestSoFarIsFirstMaximum | backend/app/mcp/functions.py:335-343 | The arg-max keeps the first strictly greatest score. It keeps nothing, with score -1.0, iff no score exceeds -1.0. |
| TrackAdvice.PerformSearchSimilarity | backend/app/mcp/functions.py:317-343 | The scoring loop returns `SimilarityOf`: an error for no stored track or a failed query, otherwise the arg-max. |
| TrackAdvice.SimilarityPicksFirstBest | backend/app/mcp/tools_functions.py:276-300 | An error iff no track is stored or the query fails. A named track has the highest score, and no earlier track reaches it. |
| TrackAdvice.StartingPoint | backend/app/mcp/tools_functions.py:333-339 | "Basis" without steps; otherwise one of the first three steps. |
| TrackAdvice.ExpertOnTwoStepsStartsLower | backend/app/mcp/tools_functions.py:336-339 | On a two-step track "expert" starts at step one while "intermediate" starts at step two. |
| TrackAdvice.StoredTrackExists | backend/app/mcp/tools_functions.py:329-330 | A track named by the search is a key of the tree, so `AI_TECH_TREE[best_track]` never fails. |
| TrackAdvice.RecommendAiTrack | backend/app/mcp/tools_functions.py:302-349 | With no interests or a list-all keyword: every track's name and description, in tree order. Otherwise the search advice. |
| TrackAdvice.RecommendationIsBestTrack | backend/app/mcp/tools_functions.py:318-349 | A recommendation names an existing track with the highest similarity and starts at one of its steps ("Basis" without steps). The reply is an error iff embeddings failed, the tree is empty, the query failed, or no track was found. |
| TechTree.OnlyFirstTrackIsOpen | frontend/v2/src/lib/tracks-parser.ts:24-30 | A node is not locked iff it is in the first track's first three steps. It is mastered iff it is in the first two of them, and available iff it is in the third. Only locked, available and mastered occur. |
| TechTree.StarCount | frontend/v2/src/lib/tracks-parser.ts:83 | 3 stars for a mastered node, 1 for an available one, and none otherwise. |
| TechTree.CategoryOfFirstLabel | frontend/v2/src/lib/tracks-parser.ts:33-41 | The category is that of the first of "Track 0" … "Track 5" the name contains, tried in that order. It is "Other" iff the name contains none of them. |
| TechTree.TrackTenIsEngineer | frontend/v2/src/lib/tracks-parser.ts:33-41 | The category test is a substring test, so "Track 10" is an "Engineer" track. |
| TechTree.NodeIdInjective | frontend/v2/src/lib/tracks-parser.ts:78 | Distinct counters give distinct `node-k` identifiers. |
| TechTree.Visible | frontend/v2/src/lib/tracks-parser.ts:66-74 | Skipped entries are exactly those named "description"; the rest are kept. |
| TechTree.ConnectFrom | frontend/v2/src/lib/tracks-parser.ts:109-121 | The loop appends one edge from each previous-step node to the new node. |
| TechTree.PlaceOption | frontend/v2/src/lib/tracks-parser.ts:73-129 | The subject loop equals `PlaceSubjects` and creates the next consecutive identifiers. |
| TechTree.PlaceStep | frontend/v2/src/lib/tracks-parser.ts:63-130 | The option loop equals `PlaceOptions` and returns the identifiers of the nodes the step created. |
| TechTree.PlaceTrack | frontend/v2/src/lib/tracks-parser.ts:56-133 | The step loop starts with no previous nodes and equals `PlaceSteps`. |
| TechTree.GetLayoutedElements | frontend/v2/src/lib/tracks-parser.ts:43-134 | The nested loops produce `TreeLayout`, the tracks in order. |
| TechTree.LayoutWellFormed | frontend/v2/src/lib/tracks-parser.ts:51-121 | Node k is "node-k", so identifiers are unique. Every edge runs from an earlier node to a later one, is named `e-source-target`, and is animated iff its target is available or mastered. |
| TechTree.StepNodes | frontend/v2/src/lib/tracks-parser.ts:79-99 | A step appends its nodes after the earlier ones, each with the step's status, the matching stars and the track's category. |
| TechTree.StepEdges | frontend/v2/src/lib/tracks-parser.ts:109-121 | A step adds exactly the mesh from the previous step's nodes to the nodes it creates. |
| TechTree.MeshIsComplete | frontend/v2/src/lib/tracks-parser.ts:109-121 | Earlier edges are kept. The new edges are one from each previous-step node to each new node, no other, and there are |prev|·|new| of them. |
| TechTree.FirstStepUnlinked | frontend/v2/src/lib/tracks-parser.ts:122-128 | The first step of a track gains no edge, so tracks are never linked to each other. |
| TrackSync.SubjectDocs | backend/scripts/sync_track_to_db.py:82-91 | One subject document per entry, in order, each with the title and the levels unchanged. |
| TrackSync.CollectSubjects | backend/scripts/sync_track_to_db.py:82-91 | The subject loop equals `SubjectDocs`. |
| TrackSync.BuildOptions | backend/scripts/sync_track_to_db.py:68-96 | The loop over sorted option names equals `SortedOptionDocs`. |
| TrackSync.BuildSteps | backend/scripts/sync_track_to_db.py:61-109 | The loop over sorted step names equals `SortedStepDocs`. |
| TrackSync.BuildTrackDocs | backend/scripts/sync_track_to_db.py:51-119 | The track loop with its order counter equals `TrackDocs(tree, 0)`. |
| TrackSync.TrackCollection.DeleteMany | backend/scripts/sync_track_to_db.py:48 | The collection is emptied, and the count is the number of documents it held. |
| TrackSync.TrackCollection.InsertMany | backend/scripts/sync_track_to_db.py:123 | The documents are appended, and the count is how many there were. |
| TrackSync.SyncTracks | backend/scripts/sync_track_to_db.py:28-126 | Without a connection nothing changes. Otherwise the collection is cleared first. A failed rebuild leaves it empty. A successful one leaves exactly the rebuilt documents, and the insert is skipped for an empty tree. |
| TrackSync.OptionDocsShape | backend/scripts/sync_track_to_db.py:73-96 | One option document per name, in name order, each listing that option's subjects. |
| TrackSync.OptionDocsCrash | backend/scripts/sync_track_to_db.py:74-82 | Building options fails iff some name is missing or holds a non-dictionary. |
| TrackSync.SortedOptionDocsCrash | backend/scripts/sync_track_to_db.py:71-82 | A step's options fail iff one of its values is not a dictionary. |
| TrackSync.StepDocsShape | backend/scripts/sync_track_to_db.py:65-109 | One step document per sorted name. Its type is FIXED iff it has exactly one option, its own subject list is empty, and its options follow the sorted option names. |
| TrackSync.StepDocsCrash | backend/scripts/sync_track_to_db.py:65-82 | Building steps fails iff a name is missing or some step is bad. |
| TrackSync.SortedStepDocsCrash | backend/scripts/sync_track_to_db.py:63-82 | A track's steps fail iff one of its steps is bad. |
| TrackSync.TrackDocsCrash | backend/scripts/sync_track_to_db.py:58-82 | The rebuild fails iff some track has a bad step. |
| TrackSync.TrackDocsShape | backend/scripts/sync_track_to_db.py:51-119 | One document per track, in tree order, the k-th numbered k + 1, with title, description and steps in sorted order. |
| Progress.Put | backend/app/services/interview_service.py:39-43 | `skills[subject] = v`: a present key keeps its place and a new one goes last. Reading it back gives v. Every other key reads as before. |
| Progress.UpdatedEffect | backend/app/services/interview_service.py:36-55 | A star is granted iff passed and score ≥ 70; then the subject's stars and the user's total each rise by exactly one. The level rises by one only on a grant reaching 3 stars below level 3, so it never passes 3. A new subject starts from the defaults and goes last. No other subject changes. |
| Progress.Summary | backend/app/services/interview_service.py:91-95 | `recent_skills` is the first min(5, n) entries of the skill tree, with the nickname and total unchanged. |
| Progress.FindEmail | backend/app/services/interview_service.py:15 | A found id belongs to a user with the email; none is found only if no user has it. |
| Progress.UserStore.GetByEmail | backend/app/services/interview_service.py:15 | The lookup loop equals `FindEmail`. |
| Progress.UserStore.GetOrCreateUser | backend/app/services/interview_service.py:10-25 | A known email returns its user and changes nothing. Otherwise exactly one new user is added under a fresh id, with no stars and no skills. The store stays valid. |
| Progress.GradeUser | backend/app/services/interview_service.py:36-55 | The grading steps for a found user return `Updated` and report a star exactly for a pass scoring at least 70. |
| Progress.UserStore.UpdateSkillStatus | backend/app/services/interview_service.py:27-74 | An unknown user gives False and changes nothing. Otherwise the result is `passed && score >= 70`, and the user is replaced by its graded version (`Updated`). |
| Progress.UserStore.GetUserState | backend/app/services/interview_service.py:83-95 | Nothing for an unknown user, otherwise its `Summary`. |
| Progress.GetOrCreateIdempotent | backend/app/services/interview_service.py:15-25 | A second get-or-create with the same email changes nothing, so an email creates at most one user. |
| Session.Apply | backend/app/engine/agents/langgraph/src/agent/graph.py:41-63 | Merging an update appends its messages (`add_messages`). Every key the update writes takes the written value, and every other key, `track` and `level` included, keeps its value. |
| Session.Transcript | backend/app/engine/agents/langgraph/src/agent/graph.py:241 | One `type: content` line per message, in order. |
| Session.StarBanner | backend/app/engine/agents/langgraph/src/agent/graph.py:230-231 | The congratulation banner comes first and the feedback follows unchanged. |
| Session.EvaluateAnswer | backend/app/engine/agents/langgraph/src/agent/graph.py:174-211 | Without an active question, only the message. With one, it raises only on an empty history; otherwise it stores the evaluator's verdict on the question text, the last message, the model answer (default "N/A") and the criteria, counts one more answer, and the star flag is the star service's answer for the question's topic (else the state topic, else "General"), asked only when the database id is set. |
| Session.FeedbackMessage | backend/app/engine/agents/langgraph/src/agent/graph.py:213-235 | Exactly one message, raising iff the history is empty. Its text is the feedback agent's answer for the question text, the last message and the evaluation (with their defaults), behind the banner for the question's topic iff a star was gained. |
| Session.FinalReport | backend/app/engine/agents/langgraph/src/agent/graph.py:237-249 | Exactly one message, the report agent's text on the `type: content` transcript of the whole history, and `interview_complete` set. The question, queue and counter are untouched. |
| Session.Deliver | backend/app/engine/agents/langgraph/src/agent/graph.py:164-172 | The head becomes the current question and is asked, the tail stays queued, and the star flag is reset. |
| Session.DeliverIsFifo | backend/app/engine/agents/langgraph/src/agent/graph.py:164 | After delivery the old queue is the current question followed by the new queue. |
| RouterGraph.LoadState | backend/app/engine/agents/langgraph/src/agent/graph.py:67-89 | Afterwards the user id, database id and limit are set. Each is written only where absent or falsy (guest, the mock id, 5). Nothing else changes. |
| RouterGraph.Route | backend/app/engine/agents/langgraph/src/agent/graph.py:91-121 | CONSULT for an empty history. WAIT, without the classifier, when the AI spoke last. Otherwise the classifier's intent (CONSULT by default). Only CHANGE_TOPIC with a non-empty topic switches the topic and empties the queue; nothing else is written. |
| RouterGraph.ConsultAsWritten | backend/app/engine/agents/langgraph/src/agent/graph.py:123-134 | As written it raises iff the history is empty; otherwise one recommendation about the last message. |
| RouterGraph.ConsultReply | backend/app/engine/agents/langgraph/src/agent/graph.py:123-134 | Corrected: always one recommendation message, equal to the as-written reply whenever that does not raise. |
| RouterGraph.GenerateQuestion | backend/app/engine/agents/langgraph/src/agent/graph.py:136-172 | It delivers the queue head, refilling an empty queue from the generator. If the generator gives nothing, only the apology is said. |
| RouterGraph.GenerateQuestionEffect | backend/app/engine/agents/langgraph/src/agent/graph.py:146-172 | Either it asks the head of the queue (or of the fresh batch) and keeps the rest in order, or it only appends the apology. The counter and the completion flag are never touched. |
| RouterGraph.Evaluate | backend/app/engine/agents/langgraph/src/agent/graph.py:29-31 | Without a question, only the "nothing to evaluate" message. With a question and a history, the count rises by one, the evaluator's verdict is stored, and the star flag is the mock rule: a database id, a pass and a score ≥ 80. |
| RouterGraph.CheckRouterIntent | backend/app/engine/agents/langgraph/src/agent/graph.py:254-273 | ANSWER evaluates iff a question is active, and otherwise generates. NEXT_QUESTION and CHANGE_TOPIC generate, QUIT reports, and every other intent (WAIT, none) consults. "end" is never returned. |
| RouterGraph.CheckContinueInterview | backend/app/engine/agents/langgraph/src/agent/graph.py:275-282 | "report" iff the count (0 by default) reaches the limit (10 by default), else "generate". |
| RouterGraph.Successor | backend/app/engine/agents/langgraph/src/agent/graph.py:299-340 | Every edge leads to a node of smaller rank, so a run ends. |
| RouterGraph.Thread.Invoke | backend/app/engine/agents/langgraph/src/agent/graph.py:287-343 | With the corrected consultation (`ConsultReply`), the node loop leaves the state and error of `Run` from `load_state` on the merged input. |
| RouterGraph.RunFromRouter | backend/app/engine/agents/langgraph/src/agent/graph.py:303-340 | With the corrected consultation (`ConsultReply`), a run from the router never raises. It keeps history, question and completion, and counts one answer iff the intent is ANSWER with a question active. |
| RouterGraph.Invocation | backend/app/engine/agents/langgraph/src/agent/graph.py:207-211 | With the corrected consultation (`ConsultReply`), an invocation never raises. It keeps the history, active question and completion flag, and adds one to the count exactly for an answer to the active question, even past the limit. As written, an empty history raises (see "## Findings"). |
| RouterGraph.WaitFallsThroughToConsult | backend/app/engine/agents/langgraph/src/agent/graph.py:100-104 | After an AI message the router's WAIT goes to the consultation, which answers the AI's own message. |
| RouterGraph.EmptyHistoryRaisesAsWritten | backend/app/engine/agents/langgraph/src/agent/graph.py:96-98 | With an empty history the router routes to consult, and `consult_node` as written raises IndexError. |
| KeywordGraph.ConsultCurriculum | backend/app/engine/graphs/interview_graph.py:36-59 | One message: the start confirmation when the input asks to start, otherwise the recommendation. A missing or AI last message uses the default input. |
| KeywordGraph.GenerateQuestion | backend/app/engine/graphs/interview_graph.py:61-114 | Generator failure gives only the failure message. Otherwise it delivers the head of the (refilled) queue with the database id. The completion branch cannot be taken. |
| KeywordGraph.GenerateQuestionEffect | backend/app/engine/graphs/interview_graph.py:96-114 | A delivery asks the source queue's head, keeps the rest in order, resets the star flag, and records the id. The counter and completion flag are unchanged. |
| KeywordGraph.Evaluate | backend/app/engine/graphs/interview_graph.py:116-153 | Without a question, only the message. With one, it raises only on an empty history; otherwise the count rises by one, the evaluator's verdict on the question and the last message is stored, and the star flag is the service's answer, asked only with a database id. |
| KeywordGraph.Feedback | backend/app/engine/graphs/interview_graph.py:155-180 | Without an evaluation, only the error message; otherwise the shared feedback message. |
| KeywordGraph.RouteInput | backend/app/engine/graphs/interview_graph.py:198-226 | Evaluate iff a human spoke last with a question active. Generate iff a human spoke last, no question is active, and the text contains "start" (any case) or "시작". Otherwise consult. |
| KeywordGraph.CheckConsultResult | backend/app/engine/graphs/interview_graph.py:228-239 | Always the end. It raises only on an empty history, where it reads `messages[-1]`. |
| KeywordGraph.CheckNextStep | backend/app/engine/graphs/interview_graph.py:241-248 | "final_report" iff the count (0 by default) reaches the limit (3 by default), else "generate_question". |
| KeywordGraph.Successor | backend/app/engine/graphs/interview_graph.py:271-296 | Every edge leads to a node of smaller rank. |
| KeywordGraph.Thread.Invoke | backend/app/engine/graphs/interview_graph.py:252-299 | The node loop leaves the state and error of `Run` from the entry chosen by `route_input`. |
| KeywordGraph.Invocation | backend/app/engine/graphs/interview_graph.py:198-248 | An invocation never raises, keeps the history, active question and completion flag, and counts one answer exactly when it enters at evaluation. |
| KeywordGraph.StartAsksQuestion | backend/app/engine/graphs/interview_graph.py:220-221 | "start" with no active question asks the next queued (or fresh) question, which becomes active. |
| WebSearch.SearchTermsCorrect | backend/app/mcp/tools_functions.py:139 | The terms are exactly the lower-cased, stripped non-blank keywords, each non-empty without surrounding space or capitals. There is one per keyword when none is blank. |
| WebSearch.Query | backend/app/mcp/tools_functions.py:140-145 | Exactly "k_blog" sends the joined keywords alone; any other category wraps them in the trend sentence. |
| WebSearch.TargetDomainsChoice | backend/app/mcp/tools_functions.py:148-184 | The domain list is chosen by the lower-cased category and is never empty. An unknown category gets the engineering list. |
| WebSearch.UpperCaseBlogCategory | backend/app/mcp/tools_functions.py:142-184 | "K_BLOG" gets the Korean blog domains but the wrapped query. |
| WebSearch.Summary | backend/app/mcp/tools_functions.py:219 | The cleaned content cut to n characters, then "...": a prefix of the cleaned text, at most n + 3 long. |
| WebSearch.SummarizeContent | backend/app/mcp/functions.py:80-104 | Without a model, or when it raises, the cleaned content cut to 300 characters and "...". |
| WebSearch.Responses | backend/app/mcp/tools_functions.py:210-223 | One response item per hit: the list is as long as the hits. |
| WebSearch.MapSeqAt | backend/app/mcp/tools_functions.py:210-223 | A list built item by item from a list holds, at each position, the item made from the element there. So response i is made from hit i, and archive item i from result i. |
| WebSearch.FormatResults | backend/app/mcp/tools_functions.py:209-223 | The formatting loop equals `Responses`. |
| WebSearch.FirstN | backend/app/mcp/tools_functions.py:229 | `xs[:n]` is a prefix of at most n items, all of `xs` when it is short. |
| WebSearch.PerformWebSearch | backend/app/mcp/tools_functions.py:130-232 | At most five items. No client gives the system error; a raising search gives the search error. Otherwise the first five formatted results, with all results and the terms handed to the archive job. |
| WebSearch.ReturnedAgreesWithArchived | backend/app/mcp/tools_functions.py:209-229 | Each returned item matches its archived copy in link, summary and tags. Only the title's domain suffix and the category differ. |
| WebSearch.ArchivedAll | backend/app/mcp/tools_functions.py:101-113 | One archive item per result: the batch is as long as the results. |
| WebSearch.ArchiveBatch | backend/app/mcp/tools_functions.py:101-113 | The batch loop equals `ArchivedAll`. |
| WebSearch.NewItemsSound | backend/app/mcp/tools_functions.py:116-122 | Only batch items whose link was not stored before are appended. |
| WebSearch.NewItemsComplete | backend/app/mcp/tools_functions.py:119-122 | Every batch item with an unstored link is appended. |
| WebSearch.NewItemsAllFresh | backend/app/mcp/tools_functions.py:116-122 | With no stored link in the batch, the whole batch is appended, duplicates included. |
| WebSearch.NewItemsNoneFresh | backend/app/mcp/functions.py:149-159 | With every link stored, nothing is appended. |
| WebSearch.SameBatchDuplicates | backend/app/mcp/tools_functions.py:116-122 | A new item repeated in one batch is archived twice, because `existing_links` is not updated. |
| WebSearch.MergeIdempotent | backend/app/mcp/functions.py:149-159 | Archiving the same batch again adds nothing. |
| WebSearch.MergeBatch | backend/app/mcp/tools_functions.py:115-122 | The merge loop gives `Merged`, and `added_count` is the number of items appended. |
| WebSearch.KnowledgeBase.ProcessAndSave | backend/app/mcp/tools_functions.py:98-128 | The archive becomes old entries plus new items. It is saved iff at least one item was added, and is unchanged otherwise. |
| AgentChat.Converted | backend/app/api/v1/chat.py:42-54 | A user message becomes a human message, an assistant message an AI message without tool calls, and a tool message a tool message keeping its id and name. Each keeps its content. Any other role gives no entry. |
| AgentChat.ReconstructHistory | backend/app/api/v1/chat.py:41-54 | The conversion loop equals `History`. |
| AgentChat.HistoryConcat | backend/app/api/v1/chat.py:42-54 | The history of a concatenation is the concatenation of histories, so order is kept. |
| AgentChat.HistoryLength | backend/app/api/v1/chat.py:42-54 | The history is never longer than the request, and is as long iff every role is kept. |
| AgentChat.UserMessagesBecomeHuman | backend/app/api/v1/chat.py:43-44 | User messages become human messages with the same content, in order. |
| AgentChat.FirstMatch | backend/app/api/v1/chat.py:96-105 | The first tool whose `name` or `__name__` equals the call's name, or none if no tool matches. |
| AgentChat.SelectTool | backend/app/api/v1/chat.py:96-105 | The lookup loop with `break` equals `FirstMatch`. |
| AgentChat.OutputCases | backend/app/api/v1/chat.py:107-122 | "Error: Tool not found." iff no tool matches. Otherwise the first match's output, or "Error: " and its exception. |
| AgentChat.Logs | backend/app/api/v1/chat.py:125-129 | One log entry per call, in call order. |
| AgentChat.Answers | backend/app/api/v1/chat.py:132-136 | One tool message per call, in call order. |
| AgentChat.RunToolCalls | backend/app/api/v1/chat.py:89-136 | The loop over a reply's calls gives `Logs` and `Answers`. |
| AgentChat.Invocations | backend/app/api/v1/chat.py:76-83 | The model is called at least once and at most the budget. |
| AgentChat.ChatEndpoint | backend/app/api/v1/chat.py:69-149 | The loop returns `Agent` on the rebuilt history with five steps, after 1 to 5 model calls. |
| AgentChat.PlainReplyEnds | backend/app/api/v1/chat.py:141-144 | A reply without tool calls is the answer after one call, with no log entry. |
| AgentChat.ToolsEveryRound | backend/app/api/v1/chat.py:70-139 | When every reply asks for tools, all budgeted calls are made and the answer is "". |
| AgentChat.FirstRoundLogged | backend/app/api/v1/chat.py:125-139 | The first reply's calls are logged ahead of the later rounds'. |

## Left out

- Language-model agents, prompts and parsing of their output are left out. They are parameters, so their fallbacks (CONSULT intent, an empty question list, the zero evaluation) are covered as possible answers. `is_passed == (score >= 70)` is only asked of the model, so it is not assumed.
- Embeddings and cosine similarity (NumPy floating point, an external API) are left out. The scores are real numbers given as a parameter, and a failed embedding start is a flag.
- `round(score, 2)` in the recommendation is left out: the score is returned unrounded.
- The search service is a parameter, so `max_results` does not bound what it returns. Only the `[:5]` cut bounds the items.
- `_extract_domain` uses `urllib.parse`, so it is a parameter.
- The background thread is left out. The model returns the job it would be given, and `ProcessAndSave` is run separately, so interleavings are not modelled.
- Loading and saving the archive file is left out. The archive is the `KnowledgeBase.entries` field. A load that fails and yields [] would let a save overwrite the file; that is not modelled.
- `collected_at`, `last_tested_at`, `updated_at` and `last_updated` timestamps are left out (clock).
- A hit title of `None` is not modelled: titles are always strings, and `_clean_text(None)` would give "".
- MongoDB connection and CRUD calls are left out. The users collection is `Progress.UserStore`, a map, and the tracks collection is `TrackSync.TrackCollection`. A connection failure is the `connected` flag.
- A track without a "description" or "steps" key is not modelled (a KeyError in `sync_tracks`). Every track record has both.
- The dagre layout, node positions, node `type` and edge style in `getLayoutedElements` are left out (presentation only).
- `list_subjects` printing its total and the first ten names is left out. The loader it imports does not exist, so the tree is a parameter.
- HTTP wiring is left out: FastAPI routing, binding tools to the model, and mapping an exception to HTTP 500. An exception is the `Crash` result.
- Calling a tool object through `.invoke` or calling a function with `**args` is one `run` function. `str(result)` is its text.
- `ToolMessage` validation of a missing tool call id is left out (library behaviour).
- A state without a "messages" key (a KeyError in `router_node`) is not modelled: an absent list is empty. An empty-dict `current_question` is not told apart from an absent one.
- The `"current_answer": None` key written by the keyword graph's question node is not modelled, because no state field holds it.
- `save_questions` of the mock and of the service is left out: it does nothing and is never called.
- Async execution and LangGraph's compilation are left out. Each node is a sequential function, and each graph's edges are the `Successor` function.
- TrackAdvice.StartingPoint: its contract states only that the start is "Basis" or one of the first three steps. The exact choice by level is its definition, with `ExpertOnTwoStepsStartsLower` as a proved instance.
- CurriculumQueries.FindInTreeCorrect: across steps and tracks, only the step-level lemma states which hit comes first. That the first matching step of the first matching track wins is stated by the recursive definition the search loops are proved equal to.
- `Text.Lower` and `Text.Upper` map ASCII letters only; Python's `str.lower()`/`str.upper()` use the full Unicode mapping. Non-ASCII text therefore differs. `"lıst".upper()` is "LIST" in Python, so `recommend_ai_track` would list every track where the model runs the search. `"\u212A_BLOG".lower()` is "k_blog", so Python picks the Korean blog domains where the model falls back to engineering.
- JavaScript's `sort()` compares UTF-16 code units while Python's `sorted` compares code points. For a key outside the Basic Multilingual Plane compared with one in U+E000–U+FFFF, the front end's and the sync script's step orders differ. `Sorting` models the code-point order only.
- `interview_service.py` as written cannot run: it imports `SubjectProgress` (line 7), which the user schema does not define, so the module fails to import. `SkillProgress()` would also fail, because the schema requires its `order` field (backend/app/schemas_db/user.py:26). And `UserCreate` is built with `auth` and `profile` (lines 20-23), while the API schema requires email, password and nickname. `Progress` models the evidently intended service instead: a new user with the given email and nickname, no stars and no skills, and a new subject at level 0 with 0 stars. The skill `order` field is left out.
- Neither graph is compiled with a checkpointer, so in the source no state is kept between invocations. `Thread.state` stands for a state the caller passes back in. With a fresh thread per call, `Invoke` is exactly one run on the input.
- Only human and AI messages are modelled (`Session.Role`). LangGraph message lists can also hold system and tool messages, which neither interview graph writes.
- `RouterGraph.Input` carries only messages. The user id, track, topic and level that a caller may also pass are fields of the state the thread starts from.
- KeywordGraph: `interview_graph.py` imports `interview_service` (line 9), so as written the keyword graph cannot be imported either, for the reasons above. The model gives it the service it evidently intends, as a pair of functions passed in. That pair is not tied to `Progress.UserStore`, so the star it reports is whatever the service answers.
- TrackSync: a failure to load `tracks.json` after `delete_many` is not modelled (loading the file is I/O). A rebuild that raises is modelled, and leaves the collection empty.
- TechTree: JavaScript `Object.keys` lists integer-like keys first, in ascending order, and the model keeps insertion order for every key. Curriculum keys are names, not integers.

## Findings

| source | as written | input that shows it | evidently intended | confidence | as-written member | corrected member |
|---|---|---|---|---|---|---|
| backend/app/engine/agents/langgraph/src/agent/graph.py:96-98 | On an empty history `router_node` returns CONSULT. The edge leads to `consult_node`, which reads `state["messages"][-1]` (line 127) and raises IndexError. | An invocation whose state and input hold no message | The comment says an empty history defaults to a consultation. The keyword-driven graph answers a default prompt in that case, and the corrected node does the same. | not executed | RouterGraph.ConsultAsWritten (shown by RouterGraph.EmptyHistoryRaisesAsWritten) | RouterGraph.ConsultReply (run by the graph; RouterGraph.Invocation proves no invocation raises) |
