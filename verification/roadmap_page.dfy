/**
 * The roadmap page: on mount it picks a roadmap source (the first saved
 * roadmap, a saved roadmap matching the query, or a fresh generation),
 * saves a freshly generated roadmap unless one with the same id is stored,
 * and renders loading, error, roadmap or fallback in that precedence.
 */
module RoadmapPage {
  import opened Common
  import opened RoadmapModel
  import opened GenerateRoute
  import RoadmapContext

  /** The query parameters the page reads; `None` is a missing parameter. */
  datatype QueryParams = QueryParams(
    subject: Option<string>,
    level: Option<string>,
    ageGroup: Option<string>,
    learningMethod: Option<string>,
    interests: Option<string>,
    id: Option<string>)

  datatype PageState = PageState(isLoading: bool, error: Option<string>, roadmapData: Option<Roadmap>)

  function InitialPageState(): PageState
  {
    PageState(true, None, None)
  }

  const GenerationError: string := "Failed to generate your learning roadmap. Please try again."

  /** Where the mount effect takes the roadmap from. */
  datatype Source =
    | ShowFirstSaved(first: Option<Roadmap>)
    | ShowExisting(roadmap: Roadmap)
    | GenerateFor(id: string)
    | EffectThrows                    // stored text that `JSON.parse` rejects; nothing catches it

  /** The stored list as the page reads it: a missing item is the empty list. */
  function SavedList(stored: StoredValue): seq<Roadmap>
  {
    if stored.ParsedList? then stored.roadmaps else []
  }

  /** `===` between a stored field (absent = undefined) and a query parameter (missing = null). */
  predicate FieldMatchesParam(field: Option<string>, param: Option<string>)
  {
    field.Some? && param.Some? && field.value == param.value
  }

  predicate MatchesQuery(r: Roadmap, q: QueryParams)
  {
    FieldMatchesParam(r.subject, q.subject)
    && FieldMatchesParam(r.level, q.level)
    && FieldMatchesParam(r.ageGroup, q.ageGroup)
  }

  /** `find`: the first roadmap matching the query, if any. */
  function FindMatching(saved: seq<Roadmap>, q: QueryParams): (r: Option<Roadmap>)
    ensures r.Some? ==> exists i :: (0 <= i < |saved| && saved[i] == r.value && MatchesQuery(saved[i], q)
                                     && forall j :: 0 <= j < i ==> !MatchesQuery(saved[j], q))
    ensures r.None? ==> forall j :: 0 <= j < |saved| ==> !MatchesQuery(saved[j], q)
  {
    if |saved| == 0 then None
    else if MatchesQuery(saved[0], q) then
      Some(saved[0])
    else
      var r := FindMatching(saved[1..], q);
      assert forall j :: 0 < j < |saved| ==> saved[j] == saved[1..][j - 1];
      if r.Some? then
        assert exists i :: 0 <= i < |saved| && saved[i] == r.value && MatchesQuery(saved[i], q)
                           && forall j :: 0 <= j < i ==> !MatchesQuery(saved[j], q) by {
          var k :| 0 <= k < |saved[1..]| && saved[1..][k] == r.value && MatchesQuery(saved[1..][k], q)
                   && forall j :: 0 <= j < k ==> !MatchesQuery(saved[1..][j], q);
          assert saved[k + 1] == r.value;
          assert forall j :: 0 < j <= k ==> !MatchesQuery(saved[j], q) by {
            forall j | 0 < j <= k ensures !MatchesQuery(saved[j], q) {
              assert saved[j] == saved[1..][j - 1];
            }
          }
        }
        r
      else r
  }

  /** `savedRoadmaps[0]`: undefined on an empty list. */
  function FirstSaved(saved: seq<Roadmap>): Option<Roadmap>
  {
    if |saved| > 0 then Some(saved[0]) else None
  }

  /** Saved roadmaps exist and no `subject` parameter is given. */
  predicate ShowSavedRoadmaps(saved: seq<Roadmap>, q: QueryParams)
  {
    |saved| > 0 && q.subject.None?
  }

  /** The source decision of the mount effect, with its repeated first check. */
  function ChooseSource(stored: StoredValue, q: QueryParams): (s: Source)
    ensures stored.Unparsable? <==> s.EffectThrows?
    ensures !stored.Unparsable? && ShowSavedRoadmaps(SavedList(stored), q) ==>
              s == ShowFirstSaved(Some(SavedList(stored)[0]))
    ensures !stored.Unparsable? && !ShowSavedRoadmaps(SavedList(stored), q) ==>
              s == (match FindMatching(SavedList(stored), q)
                    case Some(r) => ShowExisting(r)
                    case None => GenerateFor(if q.id.Some? then q.id.value else ""))
    ensures s.ShowExisting? ==> s.roadmap in SavedList(stored) && MatchesQuery(s.roadmap, q)
    ensures s.GenerateFor? ==> forall r :: r in SavedList(stored) ==> !MatchesQuery(r, q)
  {
    if stored.Unparsable? then EffectThrows
    else
      var saved := SavedList(stored);
      if ShowSavedRoadmaps(saved, q) then ShowFirstSaved(FirstSaved(saved))
      else if ShowSavedRoadmaps(saved, q) then ShowFirstSaved(FirstSaved(saved))
      else
        match FindMatching(saved, q)
        case Some(existing) => ShowExisting(existing)
        case None => GenerateFor(if q.id.Some? then q.id.value else "")
  }

  /** The same decision without the repeated check: the repetition changes nothing. */
  function ChooseSourceOnce(stored: StoredValue, q: QueryParams): Source
  {
    if stored.Unparsable? then EffectThrows
    else
      var saved := SavedList(stored);
      if ShowSavedRoadmaps(saved, q) then ShowFirstSaved(FirstSaved(saved))
      else
        match FindMatching(saved, q)
        case Some(existing) => ShowExisting(existing)
        case None => GenerateFor(if q.id.Some? then q.id.value else "")
  }

  lemma RepeatedCheckIsDead(stored: StoredValue, q: QueryParams)
    ensures ChooseSource(stored, q) == ChooseSourceOnce(stored, q)
  {
  }

  /** The onboarding record as fetched by id; every field may be absent. */
  datatype OnboardingData = OnboardingData(
    subject: Option<string>,
    level: Option<string>,
    activityDuration: Option<string>,
    learningMethod: Option<string>,
    interests: Option<string>)

  /**
   * The generation request the page sends: `subject`, `level`,
   * `learningMethod` and `interests` from the onboarding record (the
   * duration is sent too but the endpoint does not read it); no `ageGroup`.
   */
  function GenerationBody(d: OnboardingData): GenerateBody
  {
    GenerateBody(d.subject, d.level, None, d.learningMethod, d.interests)
  }

  /** `roadmap.id === newRoadmap.id` between two stored fields: two absent ids are equal. */
  function SomeIdEquals(saved: seq<Roadmap>, id: Option<string>): (found: bool)
    ensures found <==> exists i :: 0 <= i < |saved| && saved[i].id == id
  {
    if |saved| == 0 then false
    else if saved[0].id == id then true
    else
      assert forall i :: 0 < i < |saved| ==> saved[i] == saved[1..][i - 1];
      SomeIdEquals(saved[1..], id)
  }

  /** The page state once the effect is over, and the list written to storage if any. */
  datatype Settled = Settled(state: PageState, written: Option<seq<Roadmap>>)

  /**
   * `generateRoadmap`: a failed onboarding fetch or a non-ok generation
   * response sets the error; a generated roadmap is shown and appended to
   * the saved list unless a saved roadmap has the same id; loading ends in
   * every case.
   */
  function RunGeneration(saved: seq<Roadmap>, onboarding: Option<OnboardingData>,
                         respond: GenerateBody -> Option<Roadmap>): (o: Settled)
    ensures !o.state.isLoading
    ensures o.state.error.Some? <==> onboarding.None? || respond(GenerationBody(onboarding.value)).None?
    ensures o.state.error.Some? ==> o == Settled(PageState(false, Some(GenerationError), None), None)
    ensures o.state.error.None? ==>
      var r := respond(GenerationBody(onboarding.value)).value;
      && o.state.roadmapData == Some(r)
      && (o.written.Some? <==> forall i :: 0 <= i < |saved| ==> saved[i].id != r.id)
      && (o.written.Some? ==> o.written.value == saved + [r])
  {
    match onboarding
    case None => Settled(PageState(false, Some(GenerationError), None), None)
    case Some(d) =>
      match respond(GenerationBody(d))
      case None => Settled(PageState(false, Some(GenerationError), None), None)
      case Some(newRoadmap) =>
        var written := if SomeIdEquals(saved, newRoadmap.id) then None else Some(saved + [newRoadmap]);
        Settled(PageState(false, None, Some(newRoadmap)), written)
  }

  /** The network results the effect may meet. */
  datatype Network = Network(onboarding: Option<OnboardingData>, respond: GenerateBody -> Option<Roadmap>)

  /** The mount effect: `None` when it throws before settling anything. */
  function MountEffect(stored: StoredValue, q: QueryParams, net: Network): (o: Option<Settled>)
    ensures o.None? <==> stored.Unparsable?
    ensures o.Some? ==> !o.value.state.isLoading
    ensures ChooseSource(stored, q).ShowFirstSaved? ==>
              o == Some(Settled(PageState(false, None, ChooseSource(stored, q).first), None))
    ensures ChooseSource(stored, q).ShowExisting? ==>
              o == Some(Settled(PageState(false, None, Some(ChooseSource(stored, q).roadmap)), None))
    ensures ChooseSource(stored, q).GenerateFor? ==>
              o == Some(RunGeneration(SavedList(stored), net.onboarding, net.respond))
    ensures o.Some? && o.value.written.Some? ==>
      ChooseSource(stored, q).GenerateFor? && o.value.state.roadmapData.Some?
      && o.value.written.value == SavedList(stored) + [o.value.state.roadmapData.value]
  {
    match ChooseSource(stored, q)
    case EffectThrows => None
    case ShowFirstSaved(first) => Some(Settled(PageState(false, None, first), None))
    case ShowExisting(r) => Some(Settled(PageState(false, None, Some(r)), None))
    case GenerateFor(_) => Some(RunGeneration(SavedList(stored), net.onboarding, net.respond))
  }

  /** Saved roadmaps and no `subject` parameter: the first one is shown and nothing is generated. */
  lemma SavedWithoutSubjectSkipsGeneration(saved: seq<Roadmap>, q: QueryParams, net: Network)
    requires |saved| > 0 && q.subject.None?
    ensures MountEffect(ParsedList(saved), q, net)
            == Some(Settled(PageState(false, None, Some(saved[0])), None))
  {
  }

  /**
   * With saved roadmaps and no `subject` parameter, the page shows the same
   * roadmap the shared context starts with.
   */
  lemma PageShowsContextRoadmap(stored: StoredValue, q: QueryParams, net: Network)
    requires stored.ParsedList? && |stored.roadmaps| > 0 && q.subject.None?
    ensures MountEffect(stored, q, net)
            == Some(Settled(PageState(false, None, Some(RoadmapContext.InitialRoadmap(stored))), None))
  {
  }

  /** The generation endpoint as the page sees it: an ok response carries the roadmap. */
  function ViaEndpoint(llm: LlmReply, parse: string -> Result<Roadmap, Thrown>): GenerateBody -> Option<Roadmap>
  {
    b => var o := GeneratePost(Parsed(b), llm, parse);
         if o.response.Generated? then Some(o.response.roadmap) else None
  }

  /**
   * The page never sends `ageGroup`, which the endpoint requires: every
   * generation request it makes is answered 400 without calling the model,
   * and the page ends on its error message with nothing saved.
   */
  lemma GenerationAlwaysRejected(saved: seq<Roadmap>, d: OnboardingData,
                                 llm: LlmReply, parse: string -> Result<Roadmap, Thrown>)
    ensures GeneratePost(Parsed(GenerationBody(d)), llm, parse)
            == GenerateOutcome(Failed(400, MissingFieldsError), None)
    ensures RunGeneration(saved, Some(d), ViaEndpoint(llm, parse))
            == Settled(PageState(false, Some(GenerationError), None), None)
  {
  }

  /**
   * The id check treats two absent ids as equal: a generated roadmap
   * without an id is not saved once any saved roadmap lacks an id.
   */
  lemma IdlessRoadmapNotSaved(saved: seq<Roadmap>, d: OnboardingData,
                              respond: GenerateBody -> Option<Roadmap>, k: nat)
    requires k < |saved| && saved[k].id.None?
    requires respond(GenerationBody(d)).Some? && respond(GenerationBody(d)).value.id.None?
    ensures RunGeneration(saved, Some(d), respond).written.None?
  {
  }

  /** What the page renders. */
  datatype View = LoadingView | ErrorView(message: string) | RoadmapView(roadmap: Roadmap) | FallbackView

  /** Render precedence: loading, then a (non-empty) error, then the roadmap, then the fallback. */
  function Render(s: PageState): (v: View)
    ensures s.isLoading <==> v.LoadingView?
    ensures v.ErrorView? <==> !s.isLoading && Truthy(s.error)
    ensures v.RoadmapView? <==> !s.isLoading && !Truthy(s.error) && s.roadmapData.Some?
    ensures v.ErrorView? ==> v.message == s.error.value
    ensures v.RoadmapView? ==> v.roadmap == s.roadmapData.value
  {
    if s.isLoading then LoadingView
    else if Truthy(s.error) then ErrorView(s.error.value)
    else if s.roadmapData.Some? then RoadmapView(s.roadmapData.value)
    else FallbackView
  }

  /** Before the effect settles the page shows the loading view; after, never. */
  lemma LoadingOnlyUntilSettled(stored: StoredValue, q: QueryParams, net: Network)
    ensures Render(InitialPageState()) == LoadingView
    ensures MountEffect(stored, q, net).Some? ==> Render(MountEffect(stored, q, net).value.state) != LoadingView
  {
  }
}
