/**
 * The roadmap display's list of saved roadmaps: on load the current
 * roadmap is merged into the stored list unless one with the same course
 * name is already there; adding a roadmap after onboarding always appends.
 */
module SavedRoadmaps {
  import opened Common
  import opened RoadmapModel

  /** The roadmaps to show and what is written back to storage (if anything). */
  datatype LoadOutcome = LoadOutcome(shown: seq<Roadmap>, written: Option<seq<Roadmap>>)

  /** Some roadmap of `rs` carries course name `name`. */
  ghost predicate HasCourse(rs: seq<Roadmap>, name: string)
  {
    exists i :: 0 <= i < |rs| && rs[i].courseName == name
  }

  /** `savedRoadmaps.some(saved => saved.courseName === name)`, front to back. */
  function SomeCourseNamed(rs: seq<Roadmap>, name: string): (found: bool)
    ensures found <==> HasCourse(rs, name)
  {
    if |rs| == 0 then false
    else if rs[0].courseName == name then true
    else
      HasCourseInTail(rs, name);
      SomeCourseNamed(rs[1..], name)
  }

  lemma HasCourseInTail(rs: seq<Roadmap>, name: string)
    requires |rs| > 0 && rs[0].courseName != name
    ensures HasCourse(rs, name) <==> HasCourse(rs[1..], name)
  {
    if HasCourse(rs, name) {
      var i :| 0 <= i < |rs| && rs[i].courseName == name;
      assert rs[1..][i - 1].courseName == name;
    }
    if HasCourse(rs[1..], name) {
      var i :| 0 <= i < |rs[1..]| && rs[1..][i].courseName == name;
      assert rs[i + 1].courseName == name;
    }
  }

  /** Number of roadmaps of `rs` with course name `name`. */
  function CountCourse(rs: seq<Roadmap>, name: string): nat
  {
    if |rs| == 0 then 0
    else CountCourse(rs[..|rs| - 1], name) + (if rs[|rs| - 1].courseName == name then 1 else 0)
  }

  /** The list merge of `loadSavedRoadmaps` once storage has been read. */
  function MergeCurrent(saved: seq<Roadmap>, current: Roadmap): LoadOutcome
  {
    if SomeCourseNamed(saved, current.courseName) then LoadOutcome(saved, None)
    else
      var updated := saved + [current];
      LoadOutcome(updated, Some(updated))
  }

  /**
   * `loadSavedRoadmaps`: a missing item reads as the empty list, and a
   * storage value that cannot be parsed shows the current roadmap alone.
   */
  function LoadSavedRoadmaps(stored: StoredValue, current: Roadmap): (o: LoadOutcome)
    ensures stored.Unparsable? ==> o == LoadOutcome([current], None)
    ensures !stored.Unparsable? ==>
      var saved := if stored.ParsedList? then stored.roadmaps else [];
      && (HasCourse(saved, current.courseName) ==> o == LoadOutcome(saved, None))
      && (!HasCourse(saved, current.courseName) ==>
            o.shown == saved + [current] && o.written == Some(o.shown))
    ensures HasCourse(o.shown, current.courseName)
    ensures o.written.Some? ==> o.written.value == o.shown
  {
    match stored
    case Missing => 
      var o := MergeCurrent([], current);
      assert o.shown[0] == current;
      o
    case Unparsable =>
      assert [current][0] == current;
      LoadOutcome([current], None)
    case ParsedList(saved) =>
      var o := MergeCurrent(saved, current);
      assert !HasCourse(saved, current.courseName) ==> o.shown[|saved|] == current;
      o
  }

  /** Loading twice in a row changes nothing the second time. */
  lemma LoadIsIdempotent(stored: StoredValue, current: Roadmap)
    ensures var o := LoadSavedRoadmaps(stored, current);
      LoadSavedRoadmaps(ParsedList(o.shown), current) == LoadOutcome(o.shown, None)
  {
  }

  lemma {:induction false} CountAppend(rs: seq<Roadmap>, r: Roadmap, name: string)
    ensures CountCourse(rs + [r], name) == CountCourse(rs, name) + (if r.courseName == name then 1 else 0)
  {
    assert (rs + [r])[..|rs + [r]| - 1] == rs;
  }

  lemma {:induction false} CountPositive(rs: seq<Roadmap>, name: string)
    ensures CountCourse(rs, name) > 0 <==> HasCourse(rs, name)
  {
    if |rs| > 0 {
      var init := rs[..|rs| - 1];
      CountPositive(init, name);
      if HasCourse(init, name) {
        var i :| 0 <= i < |init| && init[i].courseName == name;
        assert rs[i].courseName == name;
      }
      if HasCourse(rs, name) && rs[|rs| - 1].courseName != name {
        var i :| 0 <= i < |rs| && rs[i].courseName == name;
        assert init[i].courseName == name;
      }
    }
  }

  /**
   * Loading never duplicates a course: the current course ends up present
   * exactly as often as before, or once if it was absent.
   */
  lemma LoadNeverDuplicates(saved: seq<Roadmap>, current: Roadmap)
    ensures var n := CountCourse(saved, current.courseName);
      CountCourse(LoadSavedRoadmaps(ParsedList(saved), current).shown, current.courseName)
        == if n == 0 then 1 else n
  {
    CountPositive(saved, current.courseName);
    CountAppend(saved, current, current.courseName);
  }

  /** `addNewRoadmap`: the new roadmap goes last, and the list shown is also written to storage. */
  function AddNewRoadmap(roadmaps: seq<Roadmap>, newRoadmap: Roadmap): (o: LoadOutcome)
    ensures |o.shown| == |roadmaps| + 1
    ensures o.shown[..|roadmaps|] == roadmaps
    ensures o.shown[|roadmaps|] == newRoadmap
    ensures o.written == Some(o.shown)
  {
    var updated := roadmaps + [newRoadmap];
    LoadOutcome(updated, Some(updated))
  }

  /** Unlike loading, adding does not check course names and can duplicate one. */
  lemma AddAlwaysCounts(roadmaps: seq<Roadmap>, newRoadmap: Roadmap)
    ensures CountCourse(AddNewRoadmap(roadmaps, newRoadmap).shown, newRoadmap.courseName)
            == CountCourse(roadmaps, newRoadmap.courseName) + 1
  {
    CountAppend(roadmaps, newRoadmap, newRoadmap.courseName);
  }

  /** A roadmap just added is found by the next load, which then writes nothing. */
  lemma AddThenLoadIsStable(roadmaps: seq<Roadmap>, newRoadmap: Roadmap)
    ensures var added := AddNewRoadmap(roadmaps, newRoadmap).shown;
      LoadSavedRoadmaps(ParsedList(added), newRoadmap) == LoadOutcome(added, None)
  {
    var added := AddNewRoadmap(roadmaps, newRoadmap).shown;
    assert added[|roadmaps|].courseName == newRoadmap.courseName;
  }
}
