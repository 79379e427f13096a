/**
  The three complaint routes, each a function from the store, the caller's
  identity (as the authentication middleware resolved it) and the request
  to a reply: HTTP status, JSON payload and the store afterwards. Failures
  of the database itself are inputs (`saveFault`, `readFault`): the text of
  the error the driver would raise, or `None` when it succeeds.
*/
module ComplaintRoutes {
  import opened Base
  import opened Js
  import opened ComplaintSchema
  import opened ComplaintStore

  /** The authenticated caller. The role is the stored string, not a closed set. */
  datatype Identity = Identity(id: UserId, name: string, email: string, role: string)

  /** A JSON response body. */
  datatype Payload =
    | Message(text: string)
    | Saved(record: Record)
    | Listing(records: seq<Record>)

  datatype Reply = Reply(status: nat, payload: Payload, store: Store)

  const MissingFieldsMessage := "Please provide all required fields"
  const AdminOnlyMessage := "Access denied. Admin privileges required."
  const AdminRole := "admin"

  /** A parsed JSON request body: the properties of the object. */
  type Body = map<string, Json>

  /** `req.body[key]`, `undefined` when absent. */
  function Field(body: Body, key: string): Option<Json> {
    if key in body then Some(body[key]) else None
  }

  /** The handler's own gate: title, description, category and priority all truthy. */
  predicate HasRequiredFields(body: Body) {
    && TruthyOpt(Field(body, "title"))
    && TruthyOpt(Field(body, "description"))
    && TruthyOpt(Field(body, "category"))
    && TruthyOpt(Field(body, "priority"))
  }

  /**
    The object handed to the model constructor: four fields from the body,
    name, e-mail and owner from the authenticated identity, nothing else.
  */
  function DraftFor(who: Identity, body: Body): Draft {
    Draft(
      title := Field(body, "title"),
      name := Some(JStr(who.name)),
      email := Some(JStr(who.email)),
      category := Field(body, "category"),
      description := Field(body, "description"),
      priority := Field(body, "priority"),
      status := None,
      user := Some(who.id))
  }

  /** POST `/`: create a complaint owned by the caller. */
  function Create(st: Store, who: Identity, body: Body, saveFault: Option<string>): (r: Reply)
    ensures r.status == 201 || r.status == 400
    ensures !HasRequiredFields(body) ==> r == Reply(400, Message(MissingFieldsMessage), st)
    ensures r.status == 400 ==> r.store == st && r.payload.Message?
    ensures r.status == 201 ==>
              && r.payload.Saved?
              && r.store.records == st.records + [r.payload.record]
              && r.store.clock > st.clock
              && r.payload.record.createdAt == st.clock
              && r.payload.record.doc.status == Pending
              && r.payload.record.doc.user == who.id
  {
    if !HasRequiredFields(body) then
      Reply(400, Message(MissingFieldsMessage), st)
    else
      match Validate(DraftFor(who, body))
      case Err(es) => Reply(400, Message(ValidationMessage(es)), st)
      case Ok(c) =>
        if saveFault.Some? then Reply(400, Message(saveFault.value), st)
        else
          var (rec, st') := Insert(st, c);
          Reply(201, Saved(rec), st')
  }

  /** GET `/`: every complaint, newest first, for the exact role `admin` only. */
  function ListAll(st: Store, who: Identity, readFault: Option<string>): (r: Reply)
    ensures r.store == st
    ensures r.status == 403 <==> who.role != AdminRole
    ensures r.status == 403 ==> r.payload == Message(AdminOnlyMessage)
    ensures who.role == AdminRole && readFault.Some? ==> r == Reply(500, Message(readFault.value), st)
    ensures r.status == 200 <==> who.role == AdminRole && readFault.None?
    ensures r.status == 200 ==>
              && r.payload.Listing?
              && NewestFirst(r.payload.records)
              && multiset(r.payload.records) == multiset(st.records)
  {
    if who.role != AdminRole then Reply(403, Message(AdminOnlyMessage), st)
    else if readFault.Some? then Reply(500, Message(readFault.value), st)
    else Reply(200, Listing(FindAll(st)), st)
  }

  /** GET `/my`: the caller's own complaints, newest first. */
  function ListMine(st: Store, who: Identity, readFault: Option<string>): (r: Reply)
    ensures r.store == st
    ensures readFault.Some? ==> r == Reply(500, Message(readFault.value), st)
    ensures readFault.None? ==> r.status == 200 && r.payload.Listing?
    ensures r.status == 200 ==>
              && NewestFirst(r.payload.records)
              && (forall x :: x in r.payload.records ==> x.doc.user == who.id)
              && (forall x: Record {:trigger multiset(r.payload.records)[x]} ::
                    x.doc.user == who.id ==> multiset(r.payload.records)[x] == multiset(st.records)[x])
  {
    if readFault.Some? then Reply(500, Message(readFault.value), st)
    else Reply(200, Listing(FindByOwner(st, who.id)), st)
  }

  // ---------------------------------------------------------------------------
  // Properties of the handlers.
  // ---------------------------------------------------------------------------

  /**
    When a create succeeds: the gate passes, the schema accepts the draft
    and the save does not fail. A schema rejection answers with the
    validation message.
  */
  lemma CreateSucceedsIff(st: Store, who: Identity, body: Body, saveFault: Option<string>)
    ensures var r := Create(st, who, body, saveFault);
      && (r.status == 201 <==> HasRequiredFields(body) && Acceptable(DraftFor(who, body)) && saveFault.None?)
      && (HasRequiredFields(body) && !Acceptable(DraftFor(who, body)) ==>
            r.payload == Message(ValidationMessage(Validate(DraftFor(who, body)).error)))
      && (HasRequiredFields(body) && Acceptable(DraftFor(who, body)) && saveFault.Some? ==>
            r.payload == Message(saveFault.value))
  {
  }

  /** A successful create stores the validated document of its draft, built from a body that has the four fields. */
  lemma CreateStoresValidated(st: Store, who: Identity, body: Body, saveFault: Option<string>)
    requires Create(st, who, body, saveFault).status == 201
    ensures HasRequiredFields(body)
    ensures "title" in body && "description" in body && "category" in body && "priority" in body
    ensures Validate(DraftFor(who, body)).Ok?
    ensures Create(st, who, body, saveFault).payload.record.doc == Validate(DraftFor(who, body)).value
  {
  }

  /**
    What a successful create stores: the submitter's name, e-mail and id come
    from the identity (after the schema's setters), the status is the
    default `Pending`, and title, description, category and priority are the
    body's values.
  */
  lemma CreatedRecord(st: Store, who: Identity, body: Body, saveFault: Option<string>)
    requires Create(st, who, body, saveFault).status == 201
    ensures var rec := Create(st, who, body, saveFault).payload.record;
      && rec.doc.user == who.id
      && rec.doc.name == Trim(who.name)
      && rec.doc.email == Lower(Trim(who.email))
      && rec.doc.status == Pending
      && "title" in body && rec.doc.title == Trim(CastText(body["title"]))
      && "description" in body && rec.doc.description == Trim(CastText(body["description"]))
      && "category" in body && Some(CategoryName(rec.doc.category)) == StringValue(body["category"])
      && "priority" in body && Some(PriorityName(rec.doc.priority)) == StringValue(body["priority"])
  {
    CreateStoresValidated(st, who, body, saveFault);
    ValidatedValues(DraftFor(who, body));
  }

  /** Only the four named body properties matter: any other property, `status` included, is ignored. */
  lemma CreateIgnoresOtherFields(st: Store, who: Identity, b1: Body, b2: Body, saveFault: Option<string>)
    requires forall k :: k in ["title", "description", "category", "priority"] ==> Field(b1, k) == Field(b2, k)
    ensures Create(st, who, b1, saveFault) == Create(st, who, b2, saveFault)
  {
    assert Field(b1, "title") == Field(b2, "title");
    assert Field(b1, "description") == Field(b2, "description");
    assert Field(b1, "category") == Field(b2, "category");
    assert Field(b1, "priority") == Field(b2, "priority");
    assert DraftFor(who, b1) == DraftFor(who, b2);
  }

  /** The store invariant survives every create. */
  lemma CreatePreservesValid(st: Store, who: Identity, body: Body, saveFault: Option<string>)
    requires Valid(st)
    ensures Valid(Create(st, who, body, saveFault).store)
  {
  }

  /** Round trip: after a successful create by a user, that user's list holds the new complaint exactly once. */
  lemma CreateThenListMine(st: Store, who: Identity, body: Body)
    requires Valid(st)
    requires Create(st, who, body, None).status == 201
    ensures var r := Create(st, who, body, None);
      var mine := ListMine(r.store, who, None);
      && mine.status == 200
      && multiset(mine.payload.records)[r.payload.record] == 1
  {
    var r := Create(st, who, body, None);
    var c := Validate(DraftFor(who, body)).value;
    CreatedRecord(st, who, body, None);
    assert r.payload.record == Insert(st, c).0;
    InsertIsNew(st, c);
  }

  /** A caller's list never shows another owner's complaint, however many the store holds. */
  lemma ListMineIsolated(st: Store, who: Identity, other: Record)
    requires other in st.records && other.doc.user != who.id
    ensures other !in ListMine(st, who, None).payload.records
  {
  }

  /** An administrator's list shows every stored complaint. */
  lemma ListAllComplete(st: Store, who: Identity, rec: Record)
    requires who.role == AdminRole && rec in st.records
    ensures rec in ListAll(st, who, None).payload.records
  {
    assert rec in multiset(st.records);
  }

  /** A caller who owns nothing in the store gets an empty list. */
  lemma ListMineOthersEmpty(st: Store, who: Identity)
    requires forall x :: x in st.records ==> x.doc.user != who.id
    ensures ListMine(st, who, None).payload.records == []
  {
  }

  /** An administrator listing a one-complaint store gets exactly that complaint. */
  lemma ListAllSingle(st: Store, who: Identity, rec: Record)
    requires who.role == AdminRole && st.records == [rec]
    ensures ListAll(st, who, None).payload.records == [rec]
  {
    var all := ListAll(st, who, None).payload.records;
    assert multiset(all) == multiset{rec};
    assert |all| == 1 by { assert |multiset(all)| == |all|; }
    assert all[0] in multiset(all);
  }

  /** A successful create on an empty store leaves a store holding just the new record. */
  lemma CreateOnEmpty(author: Identity, body: Body)
    requires Create(Empty, author, body, None).status == 201
    ensures var created := Create(Empty, author, body, None);
      && created.store.records == [created.payload.record]
      && forall x :: x in created.store.records ==> x.doc.user == author.id
  {
  }

  /** The first complaint in an empty store stays out of every other user's list. */
  lemma FirstComplaintHiddenFromOthers(author: Identity, other: Identity, body: Body)
    requires Create(Empty, author, body, None).status == 201
    requires other.id != author.id
    ensures ListMine(Create(Empty, author, body, None).store, other, None).payload.records == []
  {
    var created := Create(Empty, author, body, None);
    CreateOnEmpty(author, body);
    ListMineOthersEmpty(created.store, other);
  }

  /** An administrator sees exactly the first complaint of an empty store. */
  lemma FirstComplaintSeenByAdmin(author: Identity, admin: Identity, body: Body)
    requires Create(Empty, author, body, None).status == 201
    requires admin.role == AdminRole
    ensures var created := Create(Empty, author, body, None);
      ListAll(created.store, admin, None).payload.records == [created.payload.record]
  {
    var created := Create(Empty, author, body, None);
    assert created.store.records == [created.payload.record];
    ListAllSingle(created.store, admin, created.payload.record);
  }
}
