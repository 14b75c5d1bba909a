/** The owner's "schedule new class" form: field-by-field edits, and a submit
    that looks up the chosen coach, hands a class without id to the store and
    resets the form. */
module ClassScheduler {
  import opened Collections
  import opened GymTypes

  /** `formData`. Duration and capacity hold whatever `parseInt` gave; the
      browser-side `min` and `step` limits are not checked here. */
  datatype ClassForm = ClassForm(
    name: string,
    description: string,
    coachId: string,
    date: string,
    time: string,
    duration: int,
    capacity: int,
    category: Category)

  /** The initial and reset value: empty texts, 60 minutes, 20 places and the
      strength category. */
  const EmptyForm: ClassForm := ClassForm("", "", "", "", "", 60, 20, Strength)

  /** One input's change handler, `setFormData({ ...formData, field: value })`. */
  datatype FormEdit =
    | SetName(name: string)
    | SetDescription(description: string)
    | SetCoachId(coachId: string)
    | SetDate(date: string)
    | SetTime(time: string)
    | SetDuration(duration: int)
    | SetCapacity(capacity: int)
    | SetCategory(category: Category)

  /** The form after one edit: the edited field takes the new value. */
  function ApplyEdit(f: ClassForm, e: FormEdit): (g: ClassForm)
    ensures e.SetName? ==> g == f.(name := e.name)
    ensures e.SetDescription? ==> g == f.(description := e.description)
    ensures e.SetCoachId? ==> g == f.(coachId := e.coachId)
    ensures e.SetDate? ==> g == f.(date := e.date)
    ensures e.SetTime? ==> g == f.(time := e.time)
    ensures e.SetDuration? ==> g == f.(duration := e.duration)
    ensures e.SetCapacity? ==> g == f.(capacity := e.capacity)
    ensures e.SetCategory? ==> g == f.(category := e.category)
  {
    match e
    case SetName(v) => f.(name := v)
    case SetDescription(v) => f.(description := v)
    case SetCoachId(v) => f.(coachId := v)
    case SetDate(v) => f.(date := v)
    case SetTime(v) => f.(time := v)
    case SetDuration(n) => f.(duration := n)
    case SetCapacity(n) => f.(capacity := n)
    case SetCategory(c) => f.(category := c)
  }

  /** Which input an edit comes from, numbered in form order. */
  function InputOf(e: FormEdit): nat
  {
    match e
    case SetName(_) => 0
    case SetDescription(_) => 1
    case SetCoachId(_) => 2
    case SetDate(_) => 3
    case SetTime(_) => 4
    case SetDuration(_) => 5
    case SetCapacity(_) => 6
    case SetCategory(_) => 7
  }

  /** Edits of two different inputs can happen in either order; a second edit
      of the same input overrides the first. */
  lemma {:induction false} EditsCommuteOrOverride(f: ClassForm, e1: FormEdit, e2: FormEdit)
    ensures InputOf(e1) != InputOf(e2) ==>
              ApplyEdit(ApplyEdit(f, e1), e2) == ApplyEdit(ApplyEdit(f, e2), e1)
    ensures InputOf(e1) == InputOf(e2) ==> ApplyEdit(ApplyEdit(f, e1), e2) == ApplyEdit(f, e2)
  {
  }

  /** `coaches.find(c => c.id === id)`: the first coach with that id. */
  function FindCoach(coaches: seq<Coach>, id: string): (r: Option<Coach>)
    ensures r.None? <==> forall i :: 0 <= i < |coaches| ==> coaches[i].id != id
    ensures r.Some? ==> r.value.id == id && r.value in coaches
    decreases |coaches|
  {
    if |coaches| == 0 then None
    else if coaches[0].id == id then Some(coaches[0])
    else
      var r := FindCoach(coaches[1..], id);
      assert forall i :: 1 <= i < |coaches| ==> coaches[i] == coaches[1..][i - 1];
      r
  }

  /** The first match wins: every coach before it has another id. */
  lemma {:induction false} FindCoachIsFirst(coaches: seq<Coach>, id: string, k: nat)
    requires k < |coaches| && coaches[k].id == id
    requires forall j :: 0 <= j < k ==> coaches[j].id != id
    ensures FindCoach(coaches, id) == Some(coaches[k])
  {
    if k > 0 {
      FindCoachIsFirst(coaches[1..], id, k - 1);
    }
  }

  /** What `handleSubmit` hands to `onAddClass`: nothing when no coach has the
      selected id; otherwise the form's fields as they are, the name of the
      first coach with that id, and no one enrolled. The record has no id. */
  function Submission(f: ClassForm, coaches: seq<Coach>): (r: Option<NewClass>)
    ensures r.None? <==> forall i :: 0 <= i < |coaches| ==> coaches[i].id != f.coachId
    ensures r.Some? ==>
              r.value.name == f.name && r.value.description == f.description &&
              r.value.coachId == f.coachId && r.value.date == f.date && r.value.time == f.time &&
              r.value.duration == f.duration && r.value.capacity == f.capacity &&
              r.value.category == f.category && r.value.enrolled == 0 &&
              r.value.coachName == FindCoach(coaches, f.coachId).value.name
  {
    match FindCoach(coaches, f.coachId)
    case None => None
    case Some(coach) =>
      Some(NewClass(f.name, f.description, f.coachId, coach.name, f.date, f.time,
                    f.duration, f.capacity, 0, f.category))
  }

  /** The name put on the class is that of a coach whose id is the one chosen. */
  lemma {:induction false} SubmittedCoachNameBelongsToCoach(f: ClassForm, coaches: seq<Coach>)
    requires Submission(f, coaches).Some?
    ensures exists i :: 0 <= i < |coaches| && coaches[i].id == f.coachId &&
                        coaches[i].name == Submission(f, coaches).value.coachName
  {
    var c := FindCoach(coaches, f.coachId).value;
    var i :| 0 <= i < |coaches| && coaches[i] == c;
  }

  /** The component's form state. */
  class ClassSchedulerForm {
    var formData: ClassForm

    constructor ()
      ensures formData == EmptyForm
    {
      formData := EmptyForm;
    }

    /** One input's change handler. */
    method Edit(e: FormEdit)
      modifies this
      ensures formData == ApplyEdit(old(formData), e)
    {
      formData := ApplyEdit(formData, e);
    }

    /** `handleSubmit`: with no matching coach nothing is submitted and the
        form stays as it was; otherwise the class is submitted and the form
        goes back to its defaults. */
    method Submit(coaches: seq<Coach>) returns (submitted: Option<NewClass>)
      modifies this
      ensures submitted == Submission(old(formData), coaches)
      ensures submitted.None? ==> formData == old(formData)
      ensures submitted.Some? ==> formData == EmptyForm
    {
      var selectedCoach := FindCoach(coaches, formData.coachId);
      if selectedCoach.None? {
        return None;
      }
      submitted := Some(NewClass(formData.name, formData.description, formData.coachId,
                                 selectedCoach.value.name, formData.date, formData.time,
                                 formData.duration, formData.capacity, 0, formData.category));
      formData := EmptyForm;
    }
  }
}
