/**
 * The roadmap display's details selection: clicking a module or a lesson
 * node selects it (or deselects it if it was already selected), and the
 * close button clears the selection.
 */
module Selection {
  import opened Common
  import opened RoadmapModel

  datatype Selection = Selection(selectedModule: Option<Module>, selectedLesson: Option<Lesson>)

  function NoSelection(): Selection
  {
    Selection(None, None)
  }

  /** The details panel shows at most one item. */
  predicate AtMostOneSelected(s: Selection)
  {
    !(s.selectedModule.Some? && s.selectedLesson.Some?)
  }

  /** `handleModuleSelect`: toggles `m` and clears the lesson. */
  function HandleModuleSelect(s: Selection, m: Module): (r: Selection)
    ensures r.selectedLesson.None?
    ensures r.selectedModule.Some? <==> s.selectedModule != Some(m)
    ensures r.selectedModule.Some? ==> r.selectedModule.value == m
    ensures AtMostOneSelected(r)
  {
    Selection(if s.selectedModule == Some(m) then None else Some(m), None)
  }

  /** `handleLessonSelect`: toggles `l` and clears the module. */
  function HandleLessonSelect(s: Selection, l: Lesson): (r: Selection)
    ensures r.selectedModule.None?
    ensures r.selectedLesson.Some? <==> s.selectedLesson != Some(l)
    ensures r.selectedLesson.Some? ==> r.selectedLesson.value == l
    ensures AtMostOneSelected(r)
  {
    Selection(None, if s.selectedLesson == Some(l) then None else Some(l))
  }

  /** `handleCloseDetails`: nothing stays selected. */
  function HandleCloseDetails(s: Selection): (r: Selection)
    ensures r.selectedModule.None? && r.selectedLesson.None?
  {
    NoSelection()
  }

  datatype Click = ModuleClicked(m: Module) | LessonClicked(l: Lesson) | CloseClicked

  function Step(s: Selection, c: Click): Selection
  {
    match c
    case ModuleClicked(m) => HandleModuleSelect(s, m)
    case LessonClicked(l) => HandleLessonSelect(s, l)
    case CloseClicked => HandleCloseDetails(s)
  }

  /** The selection after a sequence of clicks. */
  function Run(s: Selection, cs: seq<Click>): Selection
    decreases |cs|
  {
    if |cs| == 0 then s else Run(Step(s, cs[0]), cs[1..])
  }

  /** From no selection, no sequence of clicks selects a module and a lesson at once. */
  lemma {:induction false} SelectionStaysExclusive(s: Selection, cs: seq<Click>)
    requires AtMostOneSelected(s)
    ensures AtMostOneSelected(Run(s, cs))
    decreases |cs|
  {
    if |cs| > 0 {
      SelectionStaysExclusive(Step(s, cs[0]), cs[1..]);
    }
  }

  /** Clicking the selected item again closes the details panel. */
  lemma ReselectClears(s: Selection, m: Module, l: Lesson)
    ensures s.selectedModule == Some(m) ==> HandleModuleSelect(s, m) == NoSelection()
    ensures s.selectedLesson == Some(l) ==> HandleLessonSelect(s, l) == NoSelection()
  {
  }

  /** Clicking the same module twice from a cleared panel returns to a cleared panel. */
  lemma {:induction false} DoubleClickRestores(m: Module, l: Lesson)
    ensures Run(NoSelection(), [ModuleClicked(m), ModuleClicked(m)]) == NoSelection()
    ensures Run(NoSelection(), [LessonClicked(l), LessonClicked(l)]) == NoSelection()
  {
    var cs := [ModuleClicked(m), ModuleClicked(m)];
    var once := Step(NoSelection(), cs[0]);
    assert once == Selection(Some(m), None);
    assert Run(NoSelection(), cs) == Run(once, cs[1..]);
    assert Run(once, cs[1..]) == Run(NoSelection(), cs[1..][1..]);
    assert cs[1..][1..] == [];
    var ds := [LessonClicked(l), LessonClicked(l)];
    var first := Step(NoSelection(), ds[0]);
    assert first == Selection(None, Some(l));
    assert Run(NoSelection(), ds) == Run(first, ds[1..]);
    assert Run(first, ds[1..]) == Run(NoSelection(), ds[1..][1..]);
    assert ds[1..][1..] == [];
  }
}
