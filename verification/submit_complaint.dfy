/**
  The complaint form page: per-field validation on trimmed lengths and empty
  selections, edits that clear the edited field's error, and the submit step
  with its reset, success banner, redirect and failure message. The POST
  itself is an input to the submit step (its outcome), not a call.
*/
module SubmitComplaintPage {
  import opened Base
  import opened Js

  datatype Field = Title | Category | Priority | Description

  /** The controlled form. Every input delivers a string. */
  datatype Form = Form(title: string, category: string, priority: string, description: string)

  function Get(f: Form, k: Field): string {
    match k
    case Title => f.title
    case Category => f.category
    case Priority => f.priority
    case Description => f.description
  }

  /** `{ ...prev, [name]: value }`. */
  function Set(f: Form, k: Field, v: string): (r: Form)
    ensures Get(r, k) == v
    ensures forall j :: j != k ==> Get(r, j) == Get(f, j)
  {
    match k
    case Title => f.(title := v)
    case Category => f.(category := v)
    case Priority => f.(priority := v)
    case Description => f.(description := v)
  }

  const InitialForm := Form("", "", "Medium", "")

  /** Field errors: at most one message per field. */
  type Errors = map<Field, string>

  const TitleRequired := "Title is required"
  const TitleTooShort := "Title must be at least 3 characters long"
  const CategoryRequired := "Please select a category"
  const PriorityRequired := "Please select a priority level"
  const DescriptionRequired := "Description is required"
  const DescriptionTooShort := "Description must be at least 10 characters long"
  const SuccessText := "Complaint submitted successfully!"
  const FailureText := "Failed to submit complaint. Please try again."
  const DashboardPath := "/dashboard"

  /** The least trimmed length, in UTF-16 code units, the form accepts for a text field. */
  function MinLength(k: Field): nat {
    match k
    case Title => 3
    case Description => 10
    case _ => 1
  }

  /** Reference rule: a text field is long enough once trimmed; a selection is non-empty. */
  predicate FieldOk(f: Form, k: Field) {
    if k == Title || k == Description then Utf16Length(Trim(Get(f, k))) >= MinLength(k)
    else Get(f, k) != ""
  }

  predicate FormAcceptable(f: Form) {
    FieldOk(f, Title) && FieldOk(f, Category) && FieldOk(f, Priority) && FieldOk(f, Description)
  }

  /** The message for a text field: "required" when its trim is empty, "too short" when below the minimum. */
  function TextError(s: string, min: nat, required: string, tooShort: string): (r: Option<string>)
    requires min > 0
    ensures r.None? <==> Utf16Length(Trim(s)) >= min
    ensures Trim(s) == "" ==> r == Some(required)
    ensures Trim(s) != "" && Utf16Length(Trim(s)) < min ==> r == Some(tooShort)
  {
    if Trim(s) == "" then Some(required)
    else if Utf16Length(Trim(s)) < min then Some(tooShort)
    else None
  }

  function SelectionError(s: string, required: string): (r: Option<string>)
    ensures r.None? <==> s != ""
    ensures r.Some? ==> r.value == required
  {
    if s == "" then Some(required) else None
  }

  function FieldError(f: Form, k: Field): (r: Option<string>)
    ensures r.None? <==> FieldOk(f, k)
    ensures r.Some? ==> |r.value| > 0
  {
    match k
    case Title => TextError(f.title, 3, TitleRequired, TitleTooShort)
    case Category => SelectionError(f.category, CategoryRequired)
    case Priority => SelectionError(f.priority, PriorityRequired)
    case Description => TextError(f.description, 10, DescriptionRequired, DescriptionTooShort)
  }

  const AllFields: set<Field> := {Title, Category, Priority, Description}

  /** One entry per failing field, holding that field's message. */
  function ErrorsOf(f: Form): (es: Errors)
    ensures forall k :: k in es <==> FieldError(f, k).Some?
    ensures forall k :: k in es ==> es[k] == FieldError(f, k).value
  {
    map k | k in AllFields && FieldError(f, k).Some? :: FieldError(f, k).value
  }

  /** The map is empty exactly when every field passes. */
  lemma ErrorsEmptyIffAcceptable(f: Form)
    ensures ErrorsOf(f) == map[] <==> FormAcceptable(f)
  {
    var es := ErrorsOf(f);
    assert !FieldOk(f, Title) ==> Title in es;
    assert !FieldOk(f, Category) ==> Category in es;
    assert !FieldOk(f, Priority) ==> Priority in es;
    assert !FieldOk(f, Description) ==> Description in es;
  }

  /** `validateForm`: the error map and whether it is empty. */
  function ValidateForm(f: Form): (r: (Errors, bool))
    ensures r.1 <==> r.0 == map[]
    ensures r.1 <==> FormAcceptable(f)
    ensures forall k :: k in r.0 <==> !FieldOk(f, k)
    ensures forall k :: k in r.0 ==> r.0[k] == FieldError(f, k).value && r.0[k] != ""
  {
    var es := ErrorsOf(f);
    ErrorsEmptyIffAcceptable(f);
    (es, es == map[])
  }

  /** The title rules one by one: required, then at least three characters, then no error. */
  lemma TitleRules(f: Form)
    ensures var es := ValidateForm(f).0;
      && (Trim(f.title) == "" ==> Title in es && es[Title] == TitleRequired)
      && (Trim(f.title) != "" && Utf16Length(Trim(f.title)) < 3 ==> Title in es && es[Title] == TitleTooShort)
      && (Utf16Length(Trim(f.title)) >= 3 ==> Title !in es)
  {
  }

  /** The description rules one by one: required, then at least ten characters, then no error. */
  lemma DescriptionRules(f: Form)
    ensures var es := ValidateForm(f).0;
      && (Trim(f.description) == "" ==> Description in es && es[Description] == DescriptionRequired)
      && (Trim(f.description) != "" && Utf16Length(Trim(f.description)) < 10 ==>
            Description in es && es[Description] == DescriptionTooShort)
      && (Utf16Length(Trim(f.description)) >= 10 ==> Description !in es)
  {
  }

  /** The banner above the form. The text is whatever was chosen, possibly a non-string server value. */
  datatype Banner = Banner(text: Json, kind: string)

  const NoBanner := Banner(JStr(""), "")

  datatype Page = Page(form: Form, errors: Errors, loading: bool, message: Banner)

  const InitialPage := Page(InitialForm, map[], false, NoBanner)

  /** `handleChange`: set one field; blank its error only when that error was showing. */
  function HandleChange(p: Page, name: Field, value: string): (r: Page)
    ensures Get(r.form, name) == value
    ensures forall k :: k != name ==> Get(r.form, k) == Get(p.form, k)
    ensures forall k :: k != name ==> (k in r.errors <==> k in p.errors)
    ensures forall k :: k != name && k in p.errors ==> r.errors[k] == p.errors[k]
    ensures name in r.errors <==> name in p.errors
    ensures name in r.errors ==> r.errors[name] == ""
    ensures r.loading == p.loading && r.message == p.message
  {
    var errors := if name in p.errors && p.errors[name] != "" then p.errors[name := ""] else p.errors;
    p.(form := Set(p.form, name, value), errors := errors)
  }

  /** How the POST ended: success, or failure with `error.response?.data` when the server answered. */
  datatype PostResult = Posted | PostFailed(data: Option<Json>)

  /** What a submit does: the page afterwards, the body it posted (if any) and a redirect it scheduled. */
  datatype Submitted = Submitted(page: Page, request: Option<Form>, redirect: Option<string>)

  /** The failure text: the server's truthy `message`, or the fixed fallback. */
  function FailureMessage(data: Option<Json>): (m: Json)
    ensures Truthy(m)
    ensures TruthyOpt(PropOpt(data, "message")) ==> m == PropOpt(data, "message").value
    ensures !TruthyOpt(PropOpt(data, "message")) ==> m == JStr(FailureText)
  {
    OrElse(PropOpt(data, "message"), JStr(FailureText))
  }

  /** `handleSubmit`, with `result` standing for how the POST would end. */
  function HandleSubmit(p: Page, result: PostResult): (r: Submitted)
    ensures r.request.Some? <==> FormAcceptable(p.form)
    ensures r.request.Some? ==> r.request.value == p.form && !r.page.loading
    ensures r.request.None? ==>
              r == Submitted(p.(errors := ValidateForm(p.form).0), None, None)
    ensures r.request.Some? && result.Posted? ==>
              r == Submitted(Page(InitialForm, map[], false, Banner(JStr(SuccessText), "success")),
                             Some(p.form), Some(DashboardPath))
    ensures r.request.Some? && result.PostFailed? ==>
              && r.page.form == p.form
              && r.page.errors == map[]
              && r.page.message == Banner(FailureMessage(result.data), "error")
              && r.redirect.None?
  {
    var (errors, ok) := ValidateForm(p.form);
    if !ok then Submitted(p.(errors := errors), None, None)
    else
      var sending := p.(errors := errors, loading := true, message := NoBanner);
      match result
      case Posted =>
        Submitted(sending.(message := Banner(JStr(SuccessText), "success"), form := InitialForm,
                           errors := map[], loading := false),
                  Some(p.form), Some(DashboardPath))
      case PostFailed(data) =>
        Submitted(sending.(message := Banner(FailureMessage(data), "error"), loading := false), Some(p.form), None)
  }

  /** Editing a field after a failed validation clears that field's message and keeps the others. */
  lemma EditClearsOnlyThatError(p: Page, name: Field, value: string)
    requires HandleSubmit(p, Posted).request.None?
    ensures var shown := HandleSubmit(p, Posted).page;
      var edited := HandleChange(shown, name, value);
      && (name in edited.errors ==> edited.errors[name] == "")
      && (forall k :: k != name && !FieldOk(p.form, k) ==> k in edited.errors && edited.errors[k] != "")
  {
  }
}
