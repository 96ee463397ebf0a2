/**
 * The three-step onboarding form: pick a subject, then a level, then an
 * activity. Next is offered before step 3 and only once the current
 * step's choice is made; Submit is offered on step 3 once an activity is
 * chosen; Back is offered after step 1 and never goes below it.
 */
module OnboardingForm {

  datatype FormData = FormData(subject: string, level: string, activityType: string)

  datatype Field = SubjectField | LevelField | ActivityTypeField

  datatype Form = Form(step: int, data: FormData)

  const Subjects: seq<string> := ["Mathematics", "Physics", "Biology", "Engineering"]
  const Levels: seq<string> := ["Beginner", "Intermediate", "Advanced"]
  const Activities: seq<string> :=
    ["2 minutes activity", "30 minute lesson", "90 minute exam", "Compete against opponent"]
  const LastStep: int := 3

  function InitialForm(): Form
  {
    Form(1, FormData("", "", ""))
  }

  /** `updateFormData`: only the named field takes the new value. */
  function UpdateFormData(d: FormData, field: Field, value: string): (r: FormData)
    ensures field == SubjectField ==> r.subject == value && r.level == d.level && r.activityType == d.activityType
    ensures field == LevelField ==> r.level == value && r.subject == d.subject && r.activityType == d.activityType
    ensures field == ActivityTypeField ==> r.activityType == value && r.subject == d.subject && r.level == d.level
  {
    match field
    case SubjectField => d.(subject := value)
    case LevelField => d.(level := value)
    case ActivityTypeField => d.(activityType := value)
  }

  /** `handleNext`: one step forward, keeping the answers. */
  function HandleNext(f: Form): (r: Form)
    ensures r.step == f.step + 1
    ensures r.data == f.data
  {
    f.(step := f.step + 1)
  }

  /** `handleBack`: one step back, but not below step 1. */
  function HandleBack(f: Form): (r: Form)
    ensures r.data == f.data
    ensures r.step == if f.step > 1 then f.step - 1 else 1
  {
    f.(step := if f.step - 1 > 1 then f.step - 1 else 1)
  }

  predicate BackShown(f: Form) { f.step > 1 }
  predicate NextShown(f: Form) { f.step < LastStep }
  predicate SubmitShown(f: Form) { !NextShown(f) }

  predicate NextDisabled(f: Form)
  {
    (f.step == 1 && f.data.subject == "") || (f.step == 2 && f.data.level == "")
  }

  predicate SubmitDisabled(f: Form)
  {
    f.data.activityType == ""
  }

  /** A user action on the form. */
  datatype Action = Choose(field: Field, value: string) | PressNext | PressBack | PressSubmit

  /** The choices offered for each field. */
  function Options(field: Field): seq<string>
  {
    match field
    case SubjectField => Subjects
    case LevelField => Levels
    case ActivityTypeField => Activities
  }

  /** The step on which a field's choices are rendered. */
  function FieldStep(field: Field): int
  {
    match field
    case SubjectField => 1
    case LevelField => 2
    case ActivityTypeField => 3
  }

  /**
   * Actions the rendered form lets the user take: a shown, enabled button,
   * or one of the choices rendered on the current step.
   */
  predicate Offered(f: Form, a: Action)
  {
    match a
    case Choose(field, value) => value in Options(field) && f.step == FieldStep(field)
    case PressNext => NextShown(f) && !NextDisabled(f)
    case PressBack => BackShown(f)
    case PressSubmit => SubmitShown(f) && !SubmitDisabled(f)
  }

  /** The form after an offered action; submitting leaves the form to navigation. */
  function Apply(f: Form, a: Action): Form
  {
    match a
    case Choose(field, value) => f.(data := UpdateFormData(f.data, field, value))
    case PressNext => HandleNext(f)
    case PressBack => HandleBack(f)
    case PressSubmit => f
  }

  /** The invariant of the reachable forms. */
  predicate Reachable(f: Form)
  {
    && 1 <= f.step <= LastStep
    && (f.step >= 2 ==> f.data.subject != "")
    && (f.step == 3 ==> f.data.level != "")
  }

  lemma ChoicesAreNonEmpty(field: Field, value: string)
    requires value in Options(field)
    ensures value != ""
  {
  }

  /**
   * Every offered action keeps the step in `1..3`, and a step is reached
   * only after the previous steps' choices were made (choices are never
   * empty, so they are never undone).
   */
  lemma OfferedActionKeepsInvariant(f: Form, a: Action)
    requires Reachable(f) && Offered(f, a)
    ensures Reachable(Apply(f, a))
  {
    if a.Choose? {
      ChoicesAreNonEmpty(a.field, a.value);
    }
  }

  /** The form after a sequence of offered actions (the first not offered one stops it). */
  function RunActions(f: Form, actions: seq<Action>): Form
    decreases |actions|
  {
    if |actions| == 0 || !Offered(f, actions[0]) then f
    else RunActions(Apply(f, actions[0]), actions[1..])
  }

  lemma {:induction false} ReachableAlongActions(f: Form, actions: seq<Action>)
    requires Reachable(f)
    ensures Reachable(RunActions(f, actions))
    decreases |actions|
  {
    if |actions| > 0 && Offered(f, actions[0]) {
      OfferedActionKeepsInvariant(f, actions[0]);
      ReachableAlongActions(Apply(f, actions[0]), actions[1..]);
    }
  }

  /** From the initial form, whatever is clicked, the step stays in `1..3`; submit needs all three choices. */
  lemma StepStaysInRange(actions: seq<Action>)
    ensures var f := RunActions(InitialForm(), actions);
      1 <= f.step <= 3
      && (Offered(f, PressSubmit) ==>
            f.data.subject != "" && f.data.level != "" && f.data.activityType != "")
  {
    ReachableAlongActions(InitialForm(), actions);
  }

  /**
   * Next really advances: choosing any offered subject, level and activity
   * with Next in between reaches step 3 holding exactly those answers, with
   * Submit enabled.
   */
  lemma CompletingTheForm(subject: string, level: string, activity: string)
    requires subject in Subjects && level in Levels && activity in Activities
    ensures var f := RunActions(InitialForm(), [Choose(SubjectField, subject), PressNext,
                                                Choose(LevelField, level), PressNext,
                                                Choose(ActivityTypeField, activity)]);
      f == Form(3, FormData(subject, level, activity)) && Offered(f, PressSubmit)
  {
    var actions := [Choose(SubjectField, subject), PressNext,
                    Choose(LevelField, level), PressNext,
                    Choose(ActivityTypeField, activity)];
    var f1 := Form(1, FormData(subject, "", ""));
    var f2 := Form(2, FormData(subject, "", ""));
    var f3 := Form(2, FormData(subject, level, ""));
    var f4 := Form(3, FormData(subject, level, ""));
    var f5 := Form(3, FormData(subject, level, activity));
    ChoicesAreNonEmpty(SubjectField, subject);
    ChoicesAreNonEmpty(LevelField, level);
    ChoicesAreNonEmpty(ActivityTypeField, activity);
    assert RunActions(f5, actions[5..]) == f5;
    assert RunActions(f4, actions[4..]) == f5;
    assert RunActions(f3, actions[3..]) == f5;
    assert RunActions(f2, actions[2..]) == f5;
    assert RunActions(f1, actions[1..]) == f5;
  }
}
