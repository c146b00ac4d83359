/**
 * Track recommendation of tools_functions.py: the embedding similarity
 * search (`perform_search_similarity`, also in functions.py) and
 * `recommend_ai_track`. The embedding service is a parameter: whether the
 * track vectors could be stored, and the query's similarity to each stored
 * track (or the reason the query could not be embedded).
 */
module TrackAdvice {
  import opened Wrappers
  import opened Curriculum
  import opened Text

  /** The query side of the embedding service. */
  datatype QueryEmbedding = QueryError(reason: string) | Similarities(scores: seq<real>)

  datatype Similarity = BestTrack(track: Option<string>, score: real) | SimilarityError(error: string)

  const InitFailed := "Failed to initialize embeddings."

  /** The state of the arg-max loop after some tracks: the index kept and the best score. */
  datatype Best = Best(index: Option<nat>, score: real)

  /** The loop starts at -1.0 and only a strictly greater score replaces the kept one. */
  function BestSoFar(scores: seq<real>): (b: Best)
    ensures b.index.Some? ==> b.index.value < |scores|
  {
    if scores == [] then Best(None, -1.0)
    else
      var b := BestSoFar(scores[..|scores| - 1]);
      if scores[|scores| - 1] > b.score then Best(Some(|scores| - 1), scores[|scores| - 1]) else b
  }

  /**
   * The arg-max keeps the FIRST maximal score, and keeps nothing when no
   * score exceeds -1.0 (the lowest cosine similarity there is).
   */
  lemma {:induction false} BestSoFarIsFirstMaximum(scores: seq<real>)
    ensures BestSoFar(scores).index.None? <==> forall j :: 0 <= j < |scores| ==> scores[j] <= -1.0
    ensures BestSoFar(scores).index.None? ==> BestSoFar(scores).score == -1.0
    ensures BestSoFar(scores).index.Some? ==>
      var i, b := BestSoFar(scores).index.value, BestSoFar(scores).score;
      && i < |scores| && scores[i] == b && b > -1.0
      && (forall j :: 0 <= j < |scores| ==> scores[j] <= b)
      && (forall j :: 0 <= j < i ==> scores[j] < b)
  {
    if scores != [] {
      var init := scores[..|scores| - 1];
      BestSoFarIsFirstMaximum(init);
      assert forall j :: 0 <= j < |init| ==> scores[j] == init[j];
    }
  }

  /** `perform_search_similarity` over the stored track names (in tree order). */
  function SimilarityOf(names: seq<string>, query: QueryEmbedding): Similarity
    requires query.Similarities? ==> |query.scores| == |names|
  {
    if names == [] then SimilarityError(InitFailed)
    else match query
      case QueryError(reason) => SimilarityError("Embedding generation failed: " + reason)
      case Similarities(scores) =>
        var b := BestSoFar(scores);
        BestTrack(if b.index.Some? then Some(names[b.index.value]) else None, b.score)
  }

  method PerformSearchSimilarity(names: seq<string>, query: QueryEmbedding) returns (r: Similarity)
    requires query.Similarities? ==> |query.scores| == |names|
    ensures r == SimilarityOf(names, query)
  {
    if names == [] {
      return SimilarityError(InitFailed);
    }
    if query.QueryError? {
      return SimilarityError("Embedding generation failed: " + query.reason);
    }
    var scores := query.scores;
    var bestTrack: Option<string> := None;
    var bestScore := -1.0;
    ghost var bestIndex: Option<nat> := None;
    var i := 0;
    while i < |names|
      invariant 0 <= i <= |names|
      invariant BestSoFar(scores[..i]) == Best(bestIndex, bestScore)
      invariant bestIndex.Some? ==> bestIndex.value < |names| && bestTrack == Some(names[bestIndex.value])
      invariant bestIndex.None? ==> bestTrack.None?
    {
      assert scores[..i + 1][..i] == scores[..i];
      if scores[i] > bestScore {
        bestScore := scores[i];
        bestTrack := Some(names[i]);
        bestIndex := Some(i);
      }
      i := i + 1;
    }
    assert scores[..i] == scores;
    r := BestTrack(bestTrack, bestScore);
  }

  /**
   * A successful search names a stored track whose score is the highest of
   * all, and no earlier track reaches that score.
   */
  lemma SimilarityPicksFirstBest(names: seq<string>, query: QueryEmbedding)
    requires query.Similarities? ==> |query.scores| == |names|
    ensures SimilarityOf(names, query).SimilarityError? <==> names == [] || query.QueryError?
    ensures SimilarityOf(names, query).BestTrack? && SimilarityOf(names, query).track.Some? ==>
      exists i | 0 <= i < |names| ::
        && names[i] == SimilarityOf(names, query).track.value
        && query.scores[i] == SimilarityOf(names, query).score
        && (forall j :: 0 <= j < |names| ==> query.scores[j] <= query.scores[i])
        && (forall j :: 0 <= j < i ==> query.scores[j] < query.scores[i])
  {
    if names != [] && query.Similarities? {
      BestSoFarIsFirstMaximum(query.scores);
    }
  }

  // ---------------------------------------------------------------
  // recommend_ai_track
  // ---------------------------------------------------------------

  datatype TrackSummary = TrackSummary(trackName: string, description: string)

  datatype Advice =
    | AllTracks(tracks: seq<TrackSummary>, message: string)
    | Recommended(track: string, description: string, score: real, reason: string, startingPoint: string)
    | AdviceError(error: string)

  const ListAllKeywords: seq<string> := ["ALL", "LIST", "TRACKS", "전체", "목록"]

  const AllTracksMessage := "Here are all the available AI Tech Tracks."

  /** No interests, or one interest that upper-cases to a list-all keyword. */
  predicate WantsAll(interests: seq<string>) {
    interests == [] || exists i | 0 <= i < |interests| :: Upper(interests[i]) in ListAllKeywords
  }

  /**
   * The first step for a beginner, the second for "intermediate" when the
   * track has two, the third for "expert" when it has three; "Basis" when
   * the track has no steps. The level is compared lower-cased.
   */
  function StartingPoint(steps: seq<string>, experience: string): (r: string)
    ensures steps == [] ==> r == "Basis"
    ensures steps != [] ==> exists i | 0 <= i < |steps| && i <= 2 :: r == steps[i]
  {
    var level := Lower(experience);
    if level == "intermediate" && |steps| > 1 then steps[1]
    else if level == "expert" && |steps| > 2 then steps[2]
    else if steps != [] then steps[0]
    else "Basis"
  }

  /**
   * On a track of exactly two steps an "expert" starts at the first step,
   * below where an "intermediate" starts.
   */
  lemma ExpertOnTwoStepsStartsLower(steps: seq<string>)
    requires |steps| == 2
    ensures StartingPoint(steps, "expert") == steps[0]
    ensures StartingPoint(steps, "intermediate") == steps[1]
  {
    assert Lower("expert") == "expert";
    assert Lower("intermediate") == "intermediate";
  }

  /** The track names whose vectors were stored: all of them, or none when embedding failed. */
  function Stored(tree: Tree, embedded: bool): seq<string> {
    if embedded then Keys(tree) else []
  }

  lemma StoredTrackExists(tree: Tree, embedded: bool, query: QueryEmbedding)
    requires query.Similarities? ==> |query.scores| == |Stored(tree, embedded)|
    ensures SimilarityOf(Stored(tree, embedded), query).BestTrack? && SimilarityOf(Stored(tree, embedded), query).track.Some? ==>
      HasKey(tree, SimilarityOf(Stored(tree, embedded), query).track.value)
  {
    var s := SimilarityOf(Stored(tree, embedded), query);
    if s.BestTrack? && s.track.Some? {
      SimilarityPicksFirstBest(Stored(tree, embedded), query);
      var i :| 0 <= i < |Keys(tree)| && Keys(tree)[i] == s.track.value;
      assert tree[i].key == s.track.value;
    }
  }

  /** The reply for a search request (when the interests do not ask for the full list). */
  function SearchAdvice(tree: Tree, interests: seq<string>, experience: string, embedded: bool, query: QueryEmbedding): Advice
    requires query.Similarities? ==> |query.scores| == |Stored(tree, embedded)|
  {
    match SimilarityOf(Stored(tree, embedded), query)
    case SimilarityError(e) => AdviceError(e)
    case BestTrack(best, score) =>
      if best.None? || best.value == "" then AdviceError("No suitable track found.")
      else
        StoredTrackExists(tree, embedded, query);
        var info := Get(tree, best.value).value;
        Recommended(best.value, info.description, score,
          "Your interests in '" + JoinWith(", ", interests) + "' match this track's focus on " + info.description + ".",
          StartingPoint(Keys(info.steps), experience))
  }

  /** `recommend_ai_track`: the full list of tracks, or the closest track with a starting step. */
  method RecommendAiTrack(tree: Tree, interests: seq<string>, experience: string, embedded: bool, query: QueryEmbedding)
    returns (r: Advice)
    requires query.Similarities? ==> |query.scores| == |Stored(tree, embedded)|
    ensures WantsAll(interests) ==>
      && r.AllTracks? && r.message == AllTracksMessage && |r.tracks| == |tree|
      && forall i :: 0 <= i < |tree| ==> r.tracks[i] == TrackSummary(tree[i].key, tree[i].value.description)
    ensures !WantsAll(interests) ==> r == SearchAdvice(tree, interests, experience, embedded, query)
  {
    if WantsAll(interests) {
      var all: seq<TrackSummary> := [];
      var i := 0;
      while i < |tree|
        invariant 0 <= i <= |tree|
        invariant |all| == i
        invariant forall k :: 0 <= k < i ==> all[k] == TrackSummary(tree[k].key, tree[k].value.description)
      {
        all := all + [TrackSummary(tree[i].key, tree[i].value.description)];
        i := i + 1;
      }
      return AllTracks(all, AllTracksMessage);
    }
    var result := PerformSearchSimilarity(Stored(tree, embedded), query);
    if result.SimilarityError? {
      return AdviceError(result.error);
    }
    if result.track.None? || result.track.value == "" {
      return AdviceError("No suitable track found.");
    }
    StoredTrackExists(tree, embedded, query);
    var info := Get(tree, result.track.value).value;
    r := Recommended(result.track.value, info.description, result.score,
      "Your interests in '" + JoinWith(", ", interests) + "' match this track's focus on " + info.description + ".",
      StartingPoint(Keys(info.steps), experience));
  }

  /**
   * A recommendation names an existing track whose similarity is the highest
   * among the stored tracks, and starts the learner at one of its first three
   * steps (or "Basis" for a track without steps).
   */
  lemma RecommendationIsBestTrack(tree: Tree, interests: seq<string>, experience: string, embedded: bool, query: QueryEmbedding)
    requires query.Similarities? ==> |query.scores| == |Stored(tree, embedded)|
    ensures var a := SearchAdvice(tree, interests, experience, embedded, query);
      a.Recommended? ==>
        && embedded && query.Similarities?
        && HasKey(tree, a.track)
        && (forall j :: 0 <= j < |tree| ==> query.scores[j] <= a.score)
        && (Get(tree, a.track).value.steps == [] ==> a.startingPoint == "Basis")
        && (Get(tree, a.track).value.steps != [] ==> a.startingPoint in Keys(Get(tree, a.track).value.steps))
    ensures var a := SearchAdvice(tree, interests, experience, embedded, query);
      a.AdviceError? <==> !embedded || |tree| == 0 || query.QueryError? || SimilarityOf(Stored(tree, embedded), query).track in {None, Some("")}
  {
    SimilarityPicksFirstBest(Stored(tree, embedded), query);
    StoredTrackExists(tree, embedded, query);
  }
}
