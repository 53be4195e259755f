/** The counselor application wizard: three steps, two multi-select lists
    edited by toggling, required-field validation before the application is
    posted, and the bio word counter. */
module CounselorApply {
  import opened Common

  const AllSpecializations: seq<string> :=
    ["USA", "UK", "Canada", "Australia", "Germany", "Europe", "Singapore", "Netherlands"]

  const AllLanguages: seq<string> :=
    ["English", "Spanish", "Mandarin", "Hindi", "German", "French", "Korean", "Portuguese", "Arabic", "Japanese"]

  /** Where a successful submission leads. */
  const DashboardPath: string := "/counselor/dashboard"

  // ---------------------------------------------------------------------------
  // Validation and submission

  /** The form as typed; `experienceYears` is the raw text of a number field. */
  datatype ApplicationForm = ApplicationForm(
    credentials: string,
    experienceYears: string,
    specializations: seq<string>,
    languages: seq<string>,
    bio: string,
    photo: string,
    linkedinUrl: string)

  /** The posted body: the form with the experience parsed (`None` is NaN). */
  datatype Application = Application(
    credentials: string,
    experienceYears: Option<int>,
    specializations: seq<string>,
    languages: seq<string>,
    bio: string,
    photo: string,
    linkedinUrl: string)

  const EmptyForm: ApplicationForm := ApplicationForm("", "", [], [], "", "", "")

  /** A required field is empty or a selection list has nothing selected. */
  predicate MissingRequired(f: ApplicationForm)
  {
    f.credentials == "" || f.experienceYears == "" || |f.specializations| == 0 ||
    |f.languages| == 0 || f.bio == ""
  }

  /** `handleSubmit`'s request body, or `None` when the check refuses the form
      and nothing is sent. */
  function ApplicationFor(f: ApplicationForm): (r: Option<Application>)
    ensures r.None? <==> MissingRequired(f)
    ensures r.Some? ==> r.value.experienceYears == ParseInt(f.experienceYears)
  {
    if MissingRequired(f) then None
    else Some(Application(f.credentials, ParseInt(f.experienceYears), f.specializations,
                          f.languages, f.bio, f.photo, f.linkedinUrl))
  }

  /** A complete form is sent with its years of experience as a number and
      every other field unchanged; the photo and LinkedIn fields may be empty. */
  lemma CompleteFormIsSent(f: ApplicationForm, years: nat)
    requires f.credentials != "" && f.bio != ""
    requires |f.specializations| > 0 && |f.languages| > 0
    requires f.experienceYears == DecimalString(years)
    ensures ApplicationFor(f) == Some(Application(f.credentials, Some(years), f.specializations,
                                                  f.languages, f.bio, f.photo, f.linkedinUrl))
  {
    ParseIntRoundTrip(years);
  }

  /** Any one missing required field blocks the request, whatever the rest
      of the form holds. */
  lemma EachRequiredFieldBlocks(f: ApplicationForm)
    ensures ApplicationFor(f.(credentials := "")).None?
    ensures ApplicationFor(f.(experienceYears := "")).None?
    ensures ApplicationFor(f.(specializations := [])).None?
    ensures ApplicationFor(f.(languages := [])).None?
    ensures ApplicationFor(f.(bio := "")).None?
    ensures ApplicationFor(f.(photo := "", linkedinUrl := "")).None? == MissingRequired(f)
  {
  }

  // ---------------------------------------------------------------------------
  // Steps

  /** The step buttons: "Continue" from 1 to 2 and from 2 to 3, "Back" from 2
      to 1 and from 3 to 2. A move no button offers leaves the step alone. */
  function Navigate(step: int, target: int): (r: int)
    ensures 1 <= step <= 3 ==> 1 <= r <= 3
    ensures r == step || r == step + 1 || r == step - 1
  {
    if (step == 1 && target == 2) || (step == 2 && (target == 1 || target == 3)) || (step == 3 && target == 2)
    then target else step
  }

  /** No sequence of button presses leaves `1..3`. */
  lemma {:induction false} StepsStayInRange(step: int, targets: seq<int>)
    requires 1 <= step <= 3
    ensures 1 <= NavigateAll(step, targets) <= 3
    decreases |targets|
  {
    if targets != [] {
      StepsStayInRange(Navigate(step, targets[0]), targets[1..]);
    }
  }

  function NavigateAll(step: int, targets: seq<int>): int
    decreases |targets|
  {
    if targets == [] then step else NavigateAll(Navigate(step, targets[0]), targets[1..])
  }

  /** The bio counter shows the number of words; a blank bio shows 0. */
  lemma BioWordCount(bio: string)
    ensures WordCount(bio) == |WordStarts(bio)|
    ensures IsBlank(bio) ==> WordCount(bio) == 0
  {
    WordCountIsStarts(bio);
    if IsBlank(bio) {
      BlankHasNoWords(bio);
    }
  }

  // ---------------------------------------------------------------------------
  // The page object

  datatype Field = Specializations | Languages

  class ApplyPage {
    var step: int
    var form: ApplicationForm
    var sent: seq<Application>

    predicate Valid()
      reads this
    {
      1 <= step <= 3
    }

    constructor ()
      ensures Valid() && step == 1 && form == EmptyForm && sent == []
    {
      step := 1;
      form := EmptyForm;
      sent := [];
    }

    /** A step button. */
    method SetStep(target: int)
      requires Valid()
      modifies this
      ensures Valid()
      ensures step == Navigate(old(step), target) && form == old(form) && sent == old(sent)
    {
      if (step == 1 && target == 2) || (step == 2 && (target == 1 || target == 3)) || (step == 3 && target == 2) {
        step := target;
      }
    }

    /** A badge click in one of the two selection lists. */
    method ToggleSelection(field: Field, value: string)
      modifies this
      ensures field == Specializations ==>
                form == old(form).(specializations := Toggle(old(form).specializations, value))
      ensures field == Languages ==>
                form == old(form).(languages := Toggle(old(form).languages, value))
      ensures step == old(step) && sent == old(sent)
    {
      if field == Specializations {
        form := form.(specializations := Toggle(form.specializations, value));
      } else {
        form := form.(languages := Toggle(form.languages, value));
      }
    }

    /** `handleSubmit` with the outcome of the POST; returns where the page
        navigates, if anywhere. */
    method Submit(ok: bool) returns (navigateTo: Option<string>)
      modifies this
      ensures MissingRequired(old(form)) ==> sent == old(sent) && navigateTo.None?
      ensures !MissingRequired(old(form)) ==> sent == old(sent) + [ApplicationFor(old(form)).value]
      ensures navigateTo.Some? <==> !MissingRequired(old(form)) && ok
      ensures navigateTo.Some? ==> navigateTo.value == DashboardPath
      ensures step == old(step) && form == old(form)
    {
      var body := ApplicationFor(form);
      if body.None? {
        return None;
      }
      sent := sent + [body.value];
      navigateTo := if ok then Some(DashboardPath) else None;
    }
  }
}
