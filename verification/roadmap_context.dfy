/**
 * The roadmap context shared by the learning pages: the roadmap chosen on
 * start-up and the progress update.
 */
module RoadmapContext {
  import opened Common
  import opened RoadmapModel
  import opened Progress

  /**
   * The roadmap chosen on start-up: the first saved roadmap when storage
   * parses to a non-empty list, otherwise the default roadmap.
   */
  function InitialRoadmap(stored: StoredValue): (r: Roadmap)
    ensures stored.ParsedList? && |stored.roadmaps| > 0 ==> r == stored.roadmaps[0]
    ensures stored.Missing? || stored.Unparsable? || stored == ParsedList([]) ==> r == DefaultRoadmap()
  {
    if stored.ParsedList? && |stored.roadmaps| > 0 then stored.roadmaps[0]
    else DefaultRoadmap()
  }

  /**
   * `updateProgress`: without a roadmap nothing happens; otherwise only the
   * `progress` field changes, to the roadmap's progress percentage.
   */
  function UpdateProgress(state: Option<Roadmap>): (r: Option<Roadmap>)
    ensures state.None? <==> r.None?
    ensures state.Some? ==>
      && r.value.(progress := state.value.progress) == state.value
      && r.value.progress.Some? && r.value.progress.value <= 100
      && (TotalLessons(state.value.modules) == 0 ==> r.value.progress == Some(0))
    ensures state.Some? && TotalLessons(state.value.modules) > 0 ==>
      var ms := state.value.modules;
      r.value.progress == Some(MathRound((CompletedLessons(ms) as real / TotalLessons(ms) as real) * 100.0))
  {
    match state
    case None => None
    case Some(rm) => Some(rm.(progress := Some(ProgressPercentage(rm.modules))))
  }

  /** Progress depends only on the modules, so updating twice is updating once. */
  lemma UpdateProgressIdempotent(state: Option<Roadmap>)
    ensures UpdateProgress(UpdateProgress(state)) == UpdateProgress(state)
  {
  }

  /** The default roadmap: one module of three uncompleted lessons, at 0% already. */
  lemma DefaultRoadmapAtZero()
    ensures |DefaultRoadmap().modules| == 1
    ensures TotalLessons(DefaultRoadmap().modules) == 3
    ensures CompletedLessons(DefaultRoadmap().modules) == 0
    ensures ProgressPercentage(DefaultRoadmap().modules) == 0
    ensures UpdateProgress(Some(DefaultRoadmap())) == Some(DefaultRoadmap())
  {
    var ms := DefaultRoadmap().modules;
    assert ms[..0] == [];
    var ls := ms[0].lessons;
    assert ls[1..][1..][1..] == [];
    assert CompletedOf(ls) == [];
  }
}
