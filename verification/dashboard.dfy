/**
  The dashboard page as a small state machine. Each handler is a function
  from the page state and the outcomes of the requests it would make to the
  state afterwards, the requests it issued in order, and where it navigated.
  Toast notifications are not part of the state.
*/
module DashboardPage {
  import opened Base
  import opened Js
  import opened Session

  /** The dashboard's own form; category and priority are select boxes with a preset choice. */
  datatype Form = Form(title: string, description: string, category: string, priority: string)

  const BlankForm := Form("", "", "Electricity", "Medium")

  datatype Field = Title | Description | Category | Priority

  /** The page state. `user` is whatever was parsed from storage, `null` before it is known. */
  datatype State = State(
    user: Json,
    complaints: seq<Json>,
    userComplaints: seq<Json>,
    showUserComplaints: bool,
    loading: bool,
    submitting: bool,
    form: Form)

  const Initial := State(JNull, [], [], false, true, false, BlankForm)

  /** A request the page sends through the HTTP client. */
  datatype Call = GetAll | GetMine | Post(body: Form)

  /** How a list request ends: the complaints it returned, or a rejection. */
  datatype Fetch = Fetched(data: seq<Json>) | FetchFailed

  /** A handler's effect: the new state, the calls issued in order, and a navigation if any. */
  datatype Step = Step(state: State, calls: seq<Call>, navigate: Option<string>)

  const AdminRole := "admin"
  const LoginPath := "/login"

  /** `u?.role === 'admin'`, a strict comparison with the string. */
  predicate IsAdmin(u: Json) {
    Prop(u, "role") == Some(JStr(AdminRole))
  }

  /** `fetchAllComplaints`: a failure is reported and changes nothing. */
  function FetchAll(s: State, f: Fetch): (r: State)
    ensures f.Fetched? ==> r == s.(complaints := f.data)
    ensures f.FetchFailed? ==> r == s
  {
    match f
    case Fetched(data) => s.(complaints := data)
    case FetchFailed => s
  }

  /** `fetchCurrentUserComplaints`: only a success shows the list; `submitting` ends false either way. */
  function FetchMine(s: State, f: Fetch): (r: State)
    ensures r.showUserComplaints <==> f.Fetched? || s.showUserComplaints
    ensures !r.submitting
    ensures f.Fetched? ==> r.userComplaints == f.data
    ensures f.FetchFailed? ==> r == s.(submitting := false)
    ensures r.user == s.user && r.complaints == s.complaints && r.form == s.form && r.loading == s.loading
  {
    var busy := s.(submitting := true);
    match f
    case Fetched(data) => busy.(userComplaints := data, showUserComplaints := true, submitting := false)
    case FetchFailed => busy.(submitting := false)
  }

  /**
    The mount effect, from the initial state. `all` is how the admin list
    request would end. A parse exception is caught and reported; a falsy
    stored value navigates to the login view.
  */
  function Mount(st: Storage, all: Fetch): (r: Step)
    ensures !r.state.loading
    ensures r.navigate.Some? <==> ParseStored(st, UserInfoKey).Parsed? && !Truthy(ParseStored(st, UserInfoKey).value)
    ensures r.navigate.Some? ==> r.navigate.value == LoginPath
    ensures r.calls != [] <==> ParseStored(st, UserInfoKey).Parsed? && IsAdmin(ParseStored(st, UserInfoKey).value)
    ensures r.calls != [] ==> r.calls == [GetAll]
    ensures r.state.user != JNull <==> ParseStored(st, UserInfoKey).Parsed? && Truthy(ParseStored(st, UserInfoKey).value)
    ensures r.state.user != JNull ==> r.state.user == ParseStored(st, UserInfoKey).value
    ensures r.state.form == BlankForm && !r.state.showUserComplaints && !r.state.submitting
  {
    var done := Initial.(loading := false);
    match ParseStored(st, UserInfoKey)
    case Throws => Step(done, [], None)
    case Parsed(u) =>
      if !Truthy(u) then Step(done, [], Some(LoginPath))
      else if IsAdmin(u) then Step(FetchAll(done.(user := u), all), [GetAll], None)
      else Step(done.(user := u), [], None)
  }

  /** `handleChange`: one field of the form. */
  function HandleChange(s: State, name: Field, value: string): (r: State)
    ensures name == Title ==> r.form == s.form.(title := value)
    ensures name == Description ==> r.form == s.form.(description := value)
    ensures name == Category ==> r.form == s.form.(category := value)
    ensures name == Priority ==> r.form == s.form.(priority := value)
    ensures r == s.(form := r.form)
  {
    match name
    case Title => s.(form := s.form.(title := value))
    case Description => s.(form := s.form.(description := value))
    case Category => s.(form := s.form.(category := value))
    case Priority => s.(form := s.form.(priority := value))
  }

  /** The submit guard: trimmed title and trimmed description both non-empty. */
  predicate Submittable(f: Form) {
    !AllSpace(f.title) && !AllSpace(f.description)
  }

  /**
    The refresh after a successful POST: administrators reload the full
    list; anyone else reloads their own list only when it is on screen.
  */
  function Refresh(s: State, refresh: Fetch): (r: (State, seq<Call>))
    ensures |r.1| <= 1
    ensures GetAll in r.1 <==> IsAdmin(s.user)
    ensures GetMine in r.1 <==> !IsAdmin(s.user) && s.showUserComplaints
    ensures r.0.user == s.user && r.0.form == s.form && r.0.loading == s.loading
  {
    if IsAdmin(s.user) then (FetchAll(s, refresh), [GetAll])
    else if s.showUserComplaints then (FetchMine(s, refresh), [GetMine])
    else (s, [])
  }

  /**
    `handleSubmit`. `posted` says whether the POST succeeded and `refresh`
    how the follow-up list request would end, if one is made.
  */
  function HandleSubmit(s: State, posted: bool, refresh: Fetch): (r: Step)
    ensures r.navigate.None?
    ensures !Submittable(s.form) ==> r == Step(s, [], None)
    ensures Submittable(s.form) && !posted ==> r == Step(s.(submitting := false), [Post(s.form)], None)
    ensures Submittable(s.form) && posted ==>
              && r.calls == [Post(s.form)] + Refresh(s.(submitting := true, form := BlankForm), refresh).1
              && r.state.form == BlankForm
              && !r.state.submitting
              && r.state.user == s.user && r.state.loading == s.loading
  {
    if Trim(s.form.title) == "" || Trim(s.form.description) == "" then Step(s, [], None)
    else if !posted then Step(s.(submitting := false), [Post(s.form)], None)
    else
      var (after, calls) := Refresh(s.(submitting := true, form := BlankForm), refresh);
      Step(after.(submitting := false), [Post(s.form)] + calls, None)
  }

  /**
    Which requests a submit makes: the POST first, then at most one refresh,
    the full list for an administrator or the own list for anyone else who
    has it open, never both.
  */
  lemma SubmitCalls(s: State, posted: bool, refresh: Fetch)
    ensures var r := HandleSubmit(s, posted, refresh);
      && |r.calls| <= 2
      && (r.calls != [] <==> Submittable(s.form))
      && (r.calls != [] ==> r.calls[0] == Post(s.form))
      && (GetAll in r.calls <==> Submittable(s.form) && posted && IsAdmin(s.user))
      && (GetMine in r.calls <==> Submittable(s.form) && posted && !IsAdmin(s.user) && s.showUserComplaints)
      && !(GetAll in r.calls && GetMine in r.calls)
  {
    var r := HandleSubmit(s, posted, refresh);
    if Submittable(s.form) && posted {
      var rest := Refresh(s.(submitting := true, form := BlankForm), refresh).1;
      assert r.calls == [Post(s.form)] + rest;
      assert GetAll in r.calls <==> GetAll in rest;
      assert GetMine in r.calls <==> GetMine in rest;
    }
  }

  // ---------------------------------------------------------------------------
  // The page invariant.
  // ---------------------------------------------------------------------------

  /**
    What every state the handlers reach keeps: only an administrator's page
    holds the full list, and the personal list is shown only to a signed-in
    user who is not an administrator.
  */
  predicate Consistent(s: State) {
    && (!IsAdmin(s.user) ==> s.complaints == [])
    && (s.showUserComplaints ==> Truthy(s.user) && !IsAdmin(s.user))
  }

  /** Mounting establishes the invariant, whatever is stored and however the admin request ends. */
  lemma MountConsistent(st: Storage, all: Fetch)
    ensures Consistent(Mount(st, all).state)
  {
  }

  /** Editing the form keeps the invariant. */
  lemma HandleChangeConsistent(s: State, name: Field, value: string)
    requires Consistent(s)
    ensures Consistent(HandleChange(s, name, value))
  {
  }

  /** The full-list request, made only for an administrator, keeps the invariant. */
  lemma FetchAllConsistent(s: State, f: Fetch)
    requires Consistent(s) && IsAdmin(s.user)
    ensures Consistent(FetchAll(s, f))
  {
  }

  /** The "View Your Complaints" button, which exists only for a signed-in non-administrator, keeps the invariant. */
  lemma FetchMineConsistent(s: State, f: Fetch)
    requires Consistent(s) && ShowsMineButton(s)
    ensures Consistent(FetchMine(s, f))
  {
  }

  /** A submit, with any outcome and any refresh, keeps the invariant. */
  lemma HandleSubmitConsistent(s: State, posted: bool, refresh: Fetch)
    requires Consistent(s)
    ensures Consistent(HandleSubmit(s, posted, refresh).state)
  {
    if Submittable(s.form) && posted {
      var t := s.(submitting := true, form := BlankForm);
      assert Consistent(t);
      assert Consistent(Refresh(t, refresh).0);
    }
  }

  // ---------------------------------------------------------------------------
  // What the page shows.
  // ---------------------------------------------------------------------------

  predicate ShowsSpinner(s: State) { s.loading }

  /** The list of all complaints, for an administrator. */
  predicate ShowsAllList(s: State) { !s.loading && IsAdmin(s.user) }

  /** The "View Your Complaints" button, for any other signed-in user. */
  predicate ShowsMineButton(s: State) { !s.loading && Truthy(s.user) && !IsAdmin(s.user) }

  /** The caller's own complaints, once fetched. */
  predicate ShowsMineList(s: State) { ShowsMineButton(s) && s.showUserComplaints }

  /** The administrator's view and the personal view never appear together, nor with the spinner. */
  lemma ViewsExclusive(s: State)
    ensures !(ShowsAllList(s) && ShowsMineButton(s))
    ensures !(ShowsAllList(s) && ShowsMineList(s))
    ensures ShowsSpinner(s) ==> !ShowsAllList(s) && !ShowsMineButton(s)
    ensures ShowsAllList(s) ==> Truthy(s.user)
  {
  }

  /** After mounting with no stored session the page shows no list at all. */
  lemma MountWithoutSessionShowsNothing(st: Storage, all: Fetch)
    requires UserInfoKey !in st
    ensures var r := Mount(st, all);
      r.navigate == Some(LoginPath) && r.calls == [] && !ShowsAllList(r.state) && !ShowsMineButton(r.state)
  {
  }

  /** The only mount that requests anything is an administrator's, and it requests the full list once. */
  lemma MountFetchesOnlyForAdmin(st: Storage, all: Fetch)
    ensures var r := Mount(st, all);
      (r.calls == [GetAll] && ShowsAllList(r.state)) || (r.calls == [] && !ShowsAllList(r.state))
  {
  }
}
