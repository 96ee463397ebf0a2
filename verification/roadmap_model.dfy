/**
 * The roadmap records shared by the roadmap display, the roadmap context
 * and the roadmap page: a roadmap is a course name and an ordered list of
 * modules, each holding an ordered list of lessons.
 */
module RoadmapModel {
  import opened Common

  /** A lesson; an absent `completed` flag reads as not completed. */
  datatype Lesson = Lesson(
    id: int,
    title: string,
    description: string,
    topics: seq<string>,
    completed: bool)

  /** A module (chapter) of a roadmap. */
  datatype Module = Module(
    id: int,
    title: string,
    description: string,
    lessons: seq<Lesson>,
    completed: bool)

  /**
   * A roadmap as stored and passed around; every field except the course
   * name and the modules is optional (`None` is an absent JSON field).
   */
  datatype Roadmap = Roadmap(
    id: Option<string>,
    courseName: string,
    modules: seq<Module>,
    learningMethod: Option<string>,
    interests: Option<string>,
    progress: Option<int>,
    subject: Option<string>,
    level: Option<string>,
    ageGroup: Option<string>)

  /** The roadmap used when nothing usable is in storage. */
  function DefaultRoadmap(): Roadmap
  {
    Roadmap(
      None,
      "Introduction to Computer Science",
      [Module(1, "Getting Started with Programming",
         "Learn the basics of programming concepts",
         [Lesson(1, "Introduction to Computing",
            "Understanding what computing is all about",
            ["Computing basics", "History of computing"], false),
          Lesson(2, "Setting Up Your Environment",
            "Setting up your development environment",
            ["Development tools", "IDE setup"], false),
          Lesson(3, "Your First Program",
            "Writing your first program",
            ["Hello World", "Basic syntax"], false)],
         false)],
      None, None, Some(0), None, None, None)
  }

  /** What `localStorage.getItem("savedRoadmaps")` followed by `JSON.parse` yields. */
  datatype StoredValue =
    | Missing                          // no item, or an empty string
    | Unparsable                       // `JSON.parse` throws
    | ParsedList(roadmaps: seq<Roadmap>)
}
