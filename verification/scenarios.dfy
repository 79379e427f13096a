/**
  Properties that span the client and the server: the power-cut complaint
  (Alice files it, Bob's list stays empty, the administrator sees it), the
  client form against the server's gate, and the two storage layouts the
  client reads.
*/
module Scenarios {
  import opened Base
  import opened Js
  import opened Session
  import S = ComplaintSchema
  import DB = ComplaintStore
  import R = ComplaintRoutes
  import H = HttpClient
  import G = ProtectedRoute
  import F = SubmitComplaintPage

  const Alice := R.Identity(1, "Alice", "alice@example.com", "user")
  const Bob := R.Identity(2, "Bob", "bob@example.com", "user")
  const Ada := R.Identity(3, "Ada", "ada@example.com", "admin")

  const PowerCut: R.Body := map["title" := JStr("No power"), "description" := JStr("Outage since morning"),
                                "category" := JStr("Electricity"), "priority" := JStr("High")]

  /** The body a client sends for a complaint with the given texts and enum members. */
  function ComplaintBody(title: string, description: string, c: S.Category, p: S.Priority): (b: R.Body)
    ensures R.Field(b, "title") == Some(JStr(title))
    ensures R.Field(b, "description") == Some(JStr(description))
    ensures R.Field(b, "category") == Some(JStr(S.CategoryName(c)))
    ensures R.Field(b, "priority") == Some(JStr(S.PriorityName(p)))
  {
    map["title" := JStr(title), "description" := JStr(description),
        "category" := JStr(S.CategoryName(c)), "priority" := JStr(S.PriorityName(p))]
  }

  /**
    Any complaint with non-blank title and description and listed category
    and priority, from a caller with a non-blank name and e-mail, is created
    when the save succeeds.
  */
  lemma WellFormedComplaintCreated(st: DB.Store, who: R.Identity, title: string, description: string,
                                   c: S.Category, p: S.Priority)
    requires !AllSpace(title) && !AllSpace(description) && !AllSpace(who.name) && !AllSpace(who.email)
    ensures R.Create(st, who, ComplaintBody(title, description, c, p), None).status == 201
  {
    var body := ComplaintBody(title, description, c, p);
    assert R.HasRequiredFields(body) by {
      assert S.CategoryName(c) != "" && S.PriorityName(p) != "";
    }
    var d := R.DraftFor(who, body);
    assert S.CategoryOk(d.category);
    assert S.PriorityOk(d.priority);
    assert S.Acceptable(d);
    R.CreateSucceedsIff(st, who, body, None);
  }

  /** Such a complaint is stored `Pending`, with the category and priority sent, owned by its author. */
  lemma WellFormedComplaintStored(st: DB.Store, who: R.Identity, title: string, description: string,
                                  c: S.Category, p: S.Priority)
    requires !AllSpace(title) && !AllSpace(description) && !AllSpace(who.name) && !AllSpace(who.email)
    ensures var created := R.Create(st, who, ComplaintBody(title, description, c, p), None);
      && created.payload.Saved?
      && created.payload.record.doc.status == S.Pending
      && created.payload.record.doc.category == c
      && created.payload.record.doc.priority == p
      && created.payload.record.doc.user == who.id
  {
    var body := ComplaintBody(title, description, c, p);
    WellFormedComplaintCreated(st, who, title, description, c, p);
    R.CreatedRecord(st, who, body, None);
    var rec := R.Create(st, who, body, None).payload.record;
    assert S.CategoryName(rec.doc.category) == S.CategoryName(c);
    assert S.PriorityName(rec.doc.priority) == S.PriorityName(p);
    S.NamesRoundTrip(rec.doc.category, rec.doc.priority, S.Pending);
    S.NamesRoundTrip(c, p, S.Pending);
  }

  /** A body whose category is an object carrying the category's name as its `_id`. */
  function DocumentCategoryBody(title: string, description: string, c: S.Category, p: S.Priority): (b: R.Body)
    ensures R.Field(b, "title") == Some(JStr(title))
    ensures R.Field(b, "description") == Some(JStr(description))
    ensures R.Field(b, "category") == Some(JObj(map["_id" := JStr(S.CategoryName(c))]))
    ensures R.Field(b, "priority") == Some(JStr(S.PriorityName(p)))
  {
    map["title" := JStr(title), "description" := JStr(description),
        "category" := JObj(map["_id" := JStr(S.CategoryName(c))]), "priority" := JStr(S.PriorityName(p))]
  }

  /**
    The string cast takes a document's `_id`: a category sent as
    `{"_id": <name>}` is accepted and stored as that category, exactly as
    the plain name would be.
  */
  lemma DocumentIdCategoryAccepted(st: DB.Store, who: R.Identity, title: string, description: string,
                                   c: S.Category, p: S.Priority)
    requires !AllSpace(title) && !AllSpace(description) && !AllSpace(who.name) && !AllSpace(who.email)
    ensures var created := R.Create(st, who, DocumentCategoryBody(title, description, c, p), None);
      created.status == 201 && created.payload.Saved? && created.payload.record.doc.category == c
  {
    var body := DocumentCategoryBody(title, description, c, p);
    assert R.HasRequiredFields(body) by {
      assert S.PriorityName(p) != "";
    }
    var d := R.DraftFor(who, body);
    assert S.StringValue(d.category.value) == Some(S.CategoryName(c));
    assert S.CategoryOk(d.category);
    assert S.PriorityOk(d.priority);
    assert S.Acceptable(d);
    R.CreateSucceedsIff(st, who, body, None);
    R.CreatedRecord(st, who, body, None);
    S.NamesRoundTrip(c, p, S.Pending);
    var rec := R.Create(st, who, body, None).payload.record;
    assert S.CategoryName(rec.doc.category) == S.CategoryName(c);
    S.NamesRoundTrip(rec.doc.category, p, S.Pending);
  }

  /** The first user's complaint about a power cut passes the gate and the schema. */
  lemma PowerCutAccepted()
    ensures R.Create(DB.Empty, Alice, PowerCut, None).status == 201
  {
    assert !IsSpace("No power"[0]) && !IsSpace("Outage since morning"[0]);
    assert !IsSpace("Alice"[0]) && !IsSpace("alice@example.com"[0]);
    assert PowerCut == ComplaintBody("No power", "Outage since morning", S.Electricity, S.High);
    WellFormedComplaintCreated(DB.Empty, Alice, "No power", "Outage since morning", S.Electricity, S.High);
  }

  /** The power-cut complaint is stored `Pending`, at `High` priority, owned by its author. */
  lemma PowerCutStored()
    ensures var created := R.Create(DB.Empty, Alice, PowerCut, None);
      && created.payload.Saved?
      && created.payload.record.doc.status == S.Pending
      && created.payload.record.doc.priority == S.High
      && created.payload.record.doc.user == Alice.id
  {
    assert !IsSpace("No power"[0]) && !IsSpace("Outage since morning"[0]);
    assert !IsSpace("Alice"[0]) && !IsSpace("alice@example.com"[0]);
    assert PowerCut == ComplaintBody("No power", "Outage since morning", S.Electricity, S.High);
    WellFormedComplaintStored(DB.Empty, Alice, "No power", "Outage since morning", S.Electricity, S.High);
  }

  /**
    Two users and an administrator: after the first user files the power-cut
    complaint, the second user's own list is empty and the administrator's
    list holds exactly that complaint.
  */
  lemma PowerCutVisibility()
    ensures var created := R.Create(DB.Empty, Alice, PowerCut, None);
      && created.payload.Saved?
      && R.ListMine(created.store, Bob, None).payload.records == []
      && R.ListAll(created.store, Ada, None).payload.records == [created.payload.record]
  {
    PowerCutAccepted();
    R.FirstComplaintHiddenFromOthers(Alice, Bob, PowerCut);
    R.FirstComplaintSeenByAdmin(Alice, Ada, PowerCut);
  }

  /** The body the form page posts: its four fields as JSON strings. */
  function BodyOf(f: F.Form): (b: R.Body)
    ensures b.Keys == {"title", "category", "priority", "description"}
    ensures R.Field(b, "title") == Some(JStr(f.title))
    ensures R.Field(b, "description") == Some(JStr(f.description))
    ensures R.Field(b, "category") == Some(JStr(f.category))
    ensures R.Field(b, "priority") == Some(JStr(f.priority))
  {
    map["title" := JStr(f.title), "category" := JStr(f.category),
        "priority" := JStr(f.priority), "description" := JStr(f.description)]
  }

  /** A text with a non-empty trim is itself non-empty. */
  lemma TrimmedNonEmpty(s: string, n: nat)
    requires n >= 1 && Utf16Length(Trim(s)) >= n
    ensures s != ""
  {
  }

  /**
    A form the page accepts (`ValidateForm` accepts exactly the forms
    satisfying `FormAcceptable`) always gets past the server's
    required-field gate.
  */
  lemma AcceptedFormPassesGate(f: F.Form)
    requires F.FormAcceptable(f)
    ensures R.HasRequiredFields(BodyOf(f))
  {
    assert f.title != "" by {
      assert F.FieldOk(f, F.Title);
      TrimmedNonEmpty(f.title, 3);
    }
    assert f.description != "" by {
      assert F.FieldOk(f, F.Description);
      TrimmedNonEmpty(f.description, 10);
    }
    assert f.category != "" && f.priority != "" by {
      assert F.FieldOk(f, F.Category) && F.FieldOk(f, F.Priority);
    }
    var b := BodyOf(f);
    assert TruthyOpt(R.Field(b, "title")) && TruthyOpt(R.Field(b, "description"));
    assert TruthyOpt(R.Field(b, "category")) && TruthyOpt(R.Field(b, "priority"));
  }

  /** The client gate is strictly stronger: a one-character title passes the server's gate but not the form's. */
  lemma GateIsWeakerOnServer()
    ensures var f := F.Form("X", "Water", "Low", "Pipe burst on Main Street");
      R.HasRequiredFields(BodyOf(f)) && !F.ValidateForm(f).1
  {
    var f := F.Form("X", "Water", "Low", "Pipe burst on Main Street");
    var b := BodyOf(f);
    assert TruthyOpt(R.Field(b, "title")) && TruthyOpt(R.Field(b, "description"));
    assert TruthyOpt(R.Field(b, "category")) && TruthyOpt(R.Field(b, "priority"));
    assert !F.FieldOk(f, F.Title) by {
      TrimFixesTrimmed(f.title);
      assert Utf16Length(Trim(f.title)) == 1;
    }
  }

  /**
    The keys as written: a session stored only under `userInfo` makes the
    HTTP client send the bearer token, while the route guard, which reads
    `token` and `user`, still redirects to the login view.
  */
  lemma UserInfoOnlySession()
    ensures var st := map[UserInfoKey := Item("{\"token\":\"t1\"}", Parsed(JObj(map["token" := JStr("t1")])))];
      && H.HasToken(st)
      && H.AttachToken(H.Outgoing("/complaints"), st).config.headers[H.AuthorizationHeader] == "Bearer t1"
      && G.Guard(st) == G.Redirect(G.LoginPath, true)
  {
  }
}
