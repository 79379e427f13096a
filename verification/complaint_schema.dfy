/**
  The complaint document schema: enumerated category, priority and status,
  required paths, defaults, and the trim / lower-case setters, written as an
  explicit cast-normalise-validate pipeline in the order the document mapper
  runs it. Validation collects one error per failing path, in schema order.
*/
module ComplaintSchema {
  import opened Base
  import opened Js

  datatype Category = Electricity | Water | Road | Internet
  datatype Priority = Low | Medium | High
  datatype Status = Pending | InProgress | Resolved

  /** Reference to the owning user document. */
  type UserId = nat

  function CategoryName(c: Category): string {
    match c
    case Electricity => "Electricity"
    case Water => "Water"
    case Road => "Road"
    case Internet => "Internet"
  }

  function PriorityName(p: Priority): string {
    match p
    case Low => "Low"
    case Medium => "Medium"
    case High => "High"
  }

  function StatusName(s: Status): string {
    match s
    case Pending => "Pending"
    case InProgress => "In Progress"
    case Resolved => "Resolved"
  }

  /** Enum lookup by exact name: no trimming, no case folding. */
  function CategoryNamed(s: string): (r: Option<Category>)
    ensures r.Some? ==> CategoryName(r.value) == s
    ensures r.None? ==> forall c: Category :: CategoryName(c) != s
  {
    if s == "Electricity" then Some(Electricity)
    else if s == "Water" then Some(Water)
    else if s == "Road" then Some(Road)
    else if s == "Internet" then Some(Internet)
    else None
  }

  function PriorityNamed(s: string): (r: Option<Priority>)
    ensures r.Some? ==> PriorityName(r.value) == s
    ensures r.None? ==> forall p: Priority :: PriorityName(p) != s
  {
    if s == "Low" then Some(Low)
    else if s == "Medium" then Some(Medium)
    else if s == "High" then Some(High)
    else None
  }

  function StatusNamed(s: string): (r: Option<Status>)
    ensures r.Some? ==> StatusName(r.value) == s
    ensures r.None? ==> forall t: Status :: StatusName(t) != s
  {
    if s == "Pending" then Some(Pending)
    else if s == "In Progress" then Some(InProgress)
    else if s == "Resolved" then Some(Resolved)
    else None
  }

  /** Schema defaults. */
  const DefaultPriority := Medium
  const DefaultStatus := Pending

  /** The object handed to the model constructor: every path `undefined` (`None`) or a JSON value. */
  datatype Draft = Draft(
    title: Option<Json>,
    name: Option<Json>,
    email: Option<Json>,
    category: Option<Json>,
    description: Option<Json>,
    priority: Option<Json>,
    status: Option<Json>,
    user: Option<UserId>)

  /** A complaint document that passed validation. */
  datatype Complaint = Complaint(
    title: string,
    name: string,
    email: string,
    category: Category,
    description: string,
    priority: Priority,
    status: Status,
    user: UserId)

  /** The schema's paths, in declaration order. */
  datatype Path = TitlePath | NamePath | EmailPath | CategoryPath | DescriptionPath | PriorityPath | StatusPath | UserPath

  const SchemaOrder: seq<Path> :=
    [TitlePath, NamePath, EmailPath, CategoryPath, DescriptionPath, PriorityPath, StatusPath, UserPath]

  function PathIndex(p: Path): nat {
    match p
    case TitlePath => 0
    case NamePath => 1
    case EmailPath => 2
    case CategoryPath => 3
    case DescriptionPath => 4
    case PriorityPath => 5
    case StatusPath => 6
    case UserPath => 7
  }

  function PathName(p: Path): string {
    match p
    case TitlePath => "title"
    case NamePath => "name"
    case EmailPath => "email"
    case CategoryPath => "category"
    case DescriptionPath => "description"
    case PriorityPath => "priority"
    case StatusPath => "status"
    case UserPath => "user"
  }

  /** A validation failure on one path: the cast failed, a required value is missing, or a value is outside its enum. */
  datatype FieldError =
    | CastFailed(path: Path)
    | Missing(path: Path)
    | NotAllowed(path: Path, value: string)

  /** The message each failure carries: the schema's own texts, and the mapper's defaults where the schema gives none. */
  function ErrorText(e: FieldError): string {
    match e
    case CastFailed(p) => "Cast to string failed at path \"" + PathName(p) + "\""
    case Missing(p) => (
      match p
      case TitlePath => "Title is required"
      case NamePath => "Name is required"
      case EmailPath => "Email is required"
      case CategoryPath => "Category is required"
      case DescriptionPath => "Description is required"
      case PriorityPath => "Priority is required"
      case _ => "Path `" + PathName(p) + "` is required.")
    case NotAllowed(p, v) =>
      v + " is not a valid " + PathName(p)
  }

  function JoinErrors(es: seq<FieldError>): string {
    if es == [] then ""
    else if |es| == 1 then PathName(es[0].path) + ": " + ErrorText(es[0])
    else PathName(es[0].path) + ": " + ErrorText(es[0]) + ", " + JoinErrors(es[1..])
  }

  /** The `message` of the aggregated validation error. */
  function ValidationMessage(es: seq<FieldError>): string {
    "Complaint validation failed: " + JoinErrors(es)
  }

  // ---------------------------------------------------------------------------
  // The pipeline: cast, setters, validators.
  // ---------------------------------------------------------------------------

  /** A string path's value after casting. */
  datatype Cast = Undefined | Null | Text(s: string) | CastError

  /**
    The string a value carries as it is: a string itself, or the `_id` of an
    object (a document handed over where a string is expected).
  */
  function StringValue(j: Json): (r: Option<string>)
    ensures j.JStr? ==> r == Some(j.s)
    ensures j.JObj? ==> (r.Some? <==> "_id" in j.fields && j.fields["_id"].JStr?)
    ensures j.JObj? && r.Some? ==> r.value == j.fields["_id"].s
    ensures !j.JStr? && !j.JObj? ==> r.None?
  {
    match j
    case JStr(s) => Some(s)
    case JObj(m) => if "_id" in m && m["_id"].JStr? then Some(m["_id"].s) else None
    case _ => None
  }

  /** The text a value is stored as when the string cast accepts it: its carried string, else `String(v)`. */
  function CastText(j: Json): string {
    if StringValue(j).Some? then StringValue(j).value else ToText(j)
  }

  /**
    Casting to a string: `undefined` and `null` pass through; an object
    whose `_id` is a non-empty string becomes that string; any other object
    is refused, since its `toString` is the default one; every other
    primitive is converted with `String(v)`.
  */
  function CastString(v: Option<Json>): (c: Cast)
    ensures c.Undefined? <==> v.None?
    ensures c.Null? <==> v == Some(JNull)
    ensures v.Some? && v.value.JStr? ==> c == Text(v.value.s)
    ensures v.Some? && (v.value.JNum? || v.value.JBool?) ==> c == Text(ToText(v.value))
    ensures v.Some? && v.value.JObj? ==>
              if "_id" in v.value.fields && v.value.fields["_id"].JStr? && v.value.fields["_id"].s != ""
              then c == Text(v.value.fields["_id"].s)
              else c == CastError
  {
    match v
    case None => Undefined
    case Some(JNull) => Null
    case Some(JObj(m)) =>
      var id := StringValue(JObj(m));
      if id.Some? && id.value != "" then Text(id.value) else CastError
    case Some(j) => Text(ToText(j))
  }

  /** The `trim: true` setter. */
  function Trimmed(c: Cast): Cast {
    if c.Text? then Text(Trim(c.s)) else c
  }

  /** The `lowercase: true` setter. */
  function Lowered(c: Cast): Cast {
    if c.Text? then Text(Lower(c.s)) else c
  }

  /** A schema default is applied only when the path is `undefined`. */
  function OrDefault(v: Option<Json>, default: string): (r: Option<Json>)
    ensures r.Some?
    ensures v.None? ==> r == Some(JStr(default))
    ensures v.Some? ==> r == v
  {
    if v.None? then Some(JStr(default)) else v
  }

  /** The `required` validator on a string path: a non-empty string. */
  function CheckText(p: Path, c: Cast): (r: Result<string, FieldError>)
    ensures r.Ok? <==> c.Text? && c.s != ""
    ensures r.Ok? ==> r.value == c.s
    ensures r.Err? ==> r.error.path == p
  {
    match c
    case CastError => Err(CastFailed(p))
    case Text(s) => if s != "" then Ok(s) else Err(Missing(p))
    case _ => Err(Missing(p))
  }

  function CheckCategory(c: Cast): (r: Result<Category, FieldError>)
    ensures r.Ok? <==> c.Text? && CategoryNamed(c.s).Some?
    ensures r.Ok? ==> CategoryName(r.value) == c.s
    ensures r.Err? ==> r.error.path == CategoryPath
  {
    match c
    case CastError => Err(CastFailed(CategoryPath))
    case Text(s) =>
      if s == "" then Err(Missing(CategoryPath))
      else if CategoryNamed(s).Some? then Ok(CategoryNamed(s).value)
      else Err(NotAllowed(CategoryPath, s))
    case _ => Err(Missing(CategoryPath))
  }

  function CheckPriority(c: Cast): (r: Result<Priority, FieldError>)
    ensures r.Ok? <==> c.Text? && PriorityNamed(c.s).Some?
    ensures r.Ok? ==> PriorityName(r.value) == c.s
    ensures r.Err? ==> r.error.path == PriorityPath
  {
    match c
    case CastError => Err(CastFailed(PriorityPath))
    case Text(s) =>
      if s == "" then Err(Missing(PriorityPath))
      else if PriorityNamed(s).Some? then Ok(PriorityNamed(s).value)
      else Err(NotAllowed(PriorityPath, s))
    case _ => Err(Missing(PriorityPath))
  }

  /** Status is not required: only the enum validator runs, and it refuses `null`. */
  function CheckStatus(c: Cast): (r: Result<Status, FieldError>)
    requires !c.Undefined?
    ensures r.Ok? <==> c.Text? && StatusNamed(c.s).Some?
    ensures r.Ok? ==> StatusName(r.value) == c.s
    ensures r.Err? ==> r.error.path == StatusPath
  {
    match c
    case CastError => Err(CastFailed(StatusPath))
    case Text(s) =>
      if StatusNamed(s).Some? then Ok(StatusNamed(s).value)
      else Err(NotAllowed(StatusPath, s))
    case Null => Err(NotAllowed(StatusPath, "null"))
  }

  function TitleCheck(d: Draft): Result<string, FieldError> {
    CheckText(TitlePath, Trimmed(CastString(d.title)))
  }

  function NameCheck(d: Draft): Result<string, FieldError> {
    CheckText(NamePath, Trimmed(CastString(d.name)))
  }

  function EmailCheck(d: Draft): Result<string, FieldError> {
    CheckText(EmailPath, Lowered(Trimmed(CastString(d.email))))
  }

  function CategoryCheck(d: Draft): Result<Category, FieldError> {
    CheckCategory(CastString(d.category))
  }

  function DescriptionCheck(d: Draft): Result<string, FieldError> {
    CheckText(DescriptionPath, Trimmed(CastString(d.description)))
  }

  function PriorityCheck(d: Draft): Result<Priority, FieldError> {
    CheckPriority(CastString(OrDefault(d.priority, PriorityName(DefaultPriority))))
  }

  function StatusCheck(d: Draft): Result<Status, FieldError> {
    CheckStatus(CastString(OrDefault(d.status, StatusName(DefaultStatus))))
  }

  function UserCheck(d: Draft): Result<UserId, FieldError> {
    if d.user.Some? then Ok(d.user.value) else Err(Missing(UserPath))
  }

  /** The error the validator of one path reports, if any. */
  function PathError(d: Draft, p: Path): (r: Option<FieldError>)
    ensures r.Some? ==> r.value.path == p
  {
    match p
    case TitlePath => if TitleCheck(d).Ok? then None else Some(TitleCheck(d).error)
    case NamePath => if NameCheck(d).Ok? then None else Some(NameCheck(d).error)
    case EmailPath => if EmailCheck(d).Ok? then None else Some(EmailCheck(d).error)
    case CategoryPath => if CategoryCheck(d).Ok? then None else Some(CategoryCheck(d).error)
    case DescriptionPath => if DescriptionCheck(d).Ok? then None else Some(DescriptionCheck(d).error)
    case PriorityPath => if PriorityCheck(d).Ok? then None else Some(PriorityCheck(d).error)
    case StatusPath => if StatusCheck(d).Ok? then None else Some(StatusCheck(d).error)
    case UserPath => if UserCheck(d).Ok? then None else Some(UserCheck(d).error)
  }

  function PathsOf(es: seq<FieldError>): (ps: seq<Path>)
    ensures |ps| == |es|
  {
    if es == [] then [] else [es[0].path] + PathsOf(es[1..])
  }

  /** Paths strictly in schema order: in particular no path twice. */
  predicate InSchemaOrder(ps: seq<Path>) {
    forall i, j :: 0 <= i < j < |ps| ==> PathIndex(ps[i]) < PathIndex(ps[j])
  }

  /** Putting a path before paths that come later in `ps` keeps schema order. */
  lemma OrderCons(ps: seq<Path>, qs: seq<Path>)
    requires |ps| > 0 && InSchemaOrder(ps) && InSchemaOrder(qs)
    requires forall q :: q in qs ==> q in ps[1..]
    ensures InSchemaOrder([ps[0]] + qs)
  {
    forall j | 0 < j < |[ps[0]] + qs| ensures PathIndex(ps[0]) < PathIndex(([ps[0]] + qs)[j]) {
      var q := qs[j - 1];
      assert q in ps[1..];
      var k :| 0 <= k < |ps[1..]| && ps[1..][k] == q;
      assert ps[k + 1] == q;
    }
  }

  /** Run the validators `check` of the paths `ps` in turn and gather the failures. */
  function Collect(ps: seq<Path>, check: Path -> Option<FieldError>): (es: seq<FieldError>)
    requires InSchemaOrder(ps)
    requires forall p :: check(p).Some? ==> check(p).value.path == p
    ensures forall q :: q in PathsOf(es) <==> q in ps && check(q).Some?
    ensures InSchemaOrder(PathsOf(es))
  {
    if ps == [] then []
    else
      assert InSchemaOrder(ps[1..]);
      var rest := Collect(ps[1..], check);
      if check(ps[0]).None? then rest
      else
        var e := check(ps[0]).value;
        assert ([e] + rest)[1..] == rest;
        assert PathsOf([e] + rest) == [ps[0]] + PathsOf(rest);
        OrderCons(ps, PathsOf(rest));
        [e] + rest
  }

  lemma SchemaOrderComplete()
    ensures InSchemaOrder(SchemaOrder)
    ensures forall p: Path :: p in SchemaOrder
  {
    forall p: Path ensures p in SchemaOrder {
      assert SchemaOrder[PathIndex(p)] == p;
    }
  }

  // ---------------------------------------------------------------------------
  // Reference definition: which drafts the schema accepts, path by path,
  // stated directly on the JSON values.
  // ---------------------------------------------------------------------------

  /**
    A required trimmed string path: a number, a boolean, a string that is
    not all whitespace, or an object whose `_id` is such a string.
  */
  predicate TextOk(v: Option<Json>) {
    v.Some? &&
    match v.value
    case JNull => false
    case JObj(m) => "_id" in m && m["_id"].JStr? && !AllSpace(m["_id"].s)
    case JStr(s) => !AllSpace(s)
    case _ => true
  }

  /** A required enum path without default: exactly one of the listed names, as a string or as an object's `_id`. */
  predicate CategoryOk(v: Option<Json>) {
    v.Some? && StringValue(v.value).Some? && exists c: Category :: CategoryName(c) == StringValue(v.value).value
  }

  /** An enum path with a default: absent, or exactly one of the listed names, carried as for a category. */
  predicate PriorityOk(v: Option<Json>) {
    v.None? || (StringValue(v.value).Some? && exists p: Priority :: PriorityName(p) == StringValue(v.value).value)
  }

  predicate StatusOk(v: Option<Json>) {
    v.None? || (StringValue(v.value).Some? && exists t: Status :: StatusName(t) == StringValue(v.value).value)
  }

  predicate PathOk(d: Draft, p: Path) {
    match p
    case TitlePath => TextOk(d.title)
    case NamePath => TextOk(d.name)
    case EmailPath => TextOk(d.email)
    case CategoryPath => CategoryOk(d.category)
    case DescriptionPath => TextOk(d.description)
    case PriorityPath => PriorityOk(d.priority)
    case StatusPath => StatusOk(d.status)
    case UserPath => d.user.Some?
  }

  /** Every path acceptable. */
  predicate Acceptable(d: Draft) {
    && TextOk(d.title) && TextOk(d.name) && TextOk(d.email) && CategoryOk(d.category)
    && TextOk(d.description) && PriorityOk(d.priority) && StatusOk(d.status) && d.user.Some?
  }

  lemma AcceptableAllPaths(d: Draft)
    ensures Acceptable(d) <==> forall p: Path :: PathOk(d, p)
  {
    if forall p: Path :: PathOk(d, p) {
      assert PathOk(d, TitlePath) && PathOk(d, NamePath) && PathOk(d, EmailPath) && PathOk(d, CategoryPath);
      assert PathOk(d, DescriptionPath) && PathOk(d, PriorityPath) && PathOk(d, StatusPath) && PathOk(d, UserPath);
    }
  }

  /** The text of a number or boolean starts with a digit, a sign or a lower-case letter, never with whitespace. */
  lemma PrimitiveTextStart(v: Json)
    requires v.JNum? || v.JBool?
    ensures |ToText(v)| > 0
    ensures var c := ToText(v)[0]; c == '-' || c == 't' || c == 'f' || '0' <= c <= '9'
  {
  }

  /** The text of a number or boolean survives trimming. */
  lemma PrimitiveTrimNonEmpty(v: Json)
    requires v.JNum? || v.JBool?
    ensures Trim(ToText(v)) != []
  {
    PrimitiveTextStart(v);
    assert !IsSpace(ToText(v)[0]);
  }

  /** On text, the setters and `required` accept exactly what is not all whitespace. */
  lemma CheckTrimmedText(p: Path, t: string, lower: bool)
    ensures CheckText(p, if lower then Text(Lower(Trim(t))) else Text(Trim(t))).Ok? <==> !AllSpace(t)
  {
    assert |Lower(Trim(t))| == |Trim(t)|;
  }

  /** On an object, the pipeline accepts exactly a string `_id` that is not all whitespace. */
  lemma ObjectCheckMatches(p: Path, m: map<string, Json>, lower: bool)
    ensures var c := Trimmed(CastString(Some(JObj(m))));
      CheckText(p, if lower then Lowered(c) else c).Ok? <==> "_id" in m && m["_id"].JStr? && !AllSpace(m["_id"].s)
  {
    if "_id" in m && m["_id"].JStr? && m["_id"].s != "" {
      CheckTrimmedText(p, m["_id"].s, lower);
    }
  }

  /** The trim-then-require pipeline accepts exactly the values `TextOk` describes. */
  lemma TextCheckMatches(p: Path, v: Option<Json>, lower: bool)
    ensures var c := Trimmed(CastString(v));
      CheckText(p, if lower then Lowered(c) else c).Ok? <==> TextOk(v)
  {
    match v
    case None =>
    case Some(j) =>
      match j
      case JNull =>
      case JObj(m) => ObjectCheckMatches(p, m, lower);
      case JStr(s) => CheckTrimmedText(p, s, lower);
      case _ =>
        CheckTrimmedText(p, ToText(j), lower);
        PrimitiveTrimNonEmpty(j);
  }

  /** A number or boolean cast to text never spells an enum member: enum values are never coerced. */
  lemma PrimitiveIsNoName(v: Json)
    requires v.JNum? || v.JBool?
    ensures CategoryNamed(ToText(v)).None?
    ensures PriorityNamed(ToText(v)).None?
    ensures StatusNamed(ToText(v)).None?
  {
    PrimitiveTextStart(v);
    var t := ToText(v);
    assert t != "Electricity" && t != "Water" && t != "Road" && t != "Internet" by {
      assert "Electricity"[0] == 'E' && "Water"[0] == 'W' && "Road"[0] == 'R' && "Internet"[0] == 'I';
    }
    assert t != "Low" && t != "Medium" && t != "High" by {
      assert "Low"[0] == 'L' && "Medium"[0] == 'M' && "High"[0] == 'H';
    }
    assert t != "Pending" && t != "In Progress" && t != "Resolved" by {
      assert "Pending"[0] == 'P' && "In Progress"[0] == 'I' && "Resolved"[0] == 'R';
    }
  }

  /** The validators reject a path exactly when the reference definition says it is not acceptable. */
  lemma PathErrorMatches(d: Draft, p: Path)
    ensures PathError(d, p).None? <==> PathOk(d, p)
  {
    match p
    case TitlePath => TextCheckMatches(p, d.title, false);
    case NamePath => TextCheckMatches(p, d.name, false);
    case EmailPath => TextCheckMatches(p, d.email, true);
    case DescriptionPath => TextCheckMatches(p, d.description, false);
    case CategoryPath =>
      if d.category.Some? && (d.category.value.JNum? || d.category.value.JBool?) {
        PrimitiveIsNoName(d.category.value);
      }
    case PriorityPath =>
      if d.priority.Some? && (d.priority.value.JNum? || d.priority.value.JBool?) {
        PrimitiveIsNoName(d.priority.value);
      }
    case StatusPath =>
      if d.status.Some? && (d.status.value.JNum? || d.status.value.JBool?) {
        PrimitiveIsNoName(d.status.value);
      }
    case UserPath =>
  }

  /** The failures of all paths of a draft, in schema order. */
  function Failures(d: Draft): (es: seq<FieldError>)
    ensures InSchemaOrder(PathsOf(es))
    ensures forall p: Path :: p in PathsOf(es) <==> !PathOk(d, p)
  {
    SchemaOrderComplete();
    forall p: Path ensures PathError(d, p).None? <==> PathOk(d, p) {
      PathErrorMatches(d, p);
    }
    Collect(SchemaOrder, p => PathError(d, p))
  }

  /**
    The document an acceptable draft is stored as: the cast text after the
    setters, the enum members by exact name, and the defaults for an absent
    priority or status. `TextCheckValue` shows these are the values the
    validators see.
  */
  function Build(d: Draft): Complaint
    requires Acceptable(d)
  {
    Complaint(
      Trim(CastText(d.title.value)),
      Trim(CastText(d.name.value)),
      Lower(Trim(CastText(d.email.value))),
      CategoryNamed(StringValue(d.category.value).value).value,
      Trim(CastText(d.description.value)),
      if d.priority.None? then DefaultPriority else PriorityNamed(StringValue(d.priority.value).value).value,
      if d.status.None? then DefaultStatus else StatusNamed(StringValue(d.status.value).value).value,
      d.user.value)
  }

  /** On an acceptable text path the validator passes the trimmed (and lower-cased) text through. */
  lemma TextCheckValue(p: Path, v: Option<Json>, lower: bool)
    requires TextOk(v)
    ensures var c := Trimmed(CastString(v));
      var r := CheckText(p, if lower then Lowered(c) else c);
      r.Ok? && r.value == (if lower then Lower(Trim(CastText(v.value))) else Trim(CastText(v.value)))
  {
    TextCheckMatches(p, v, lower);
  }

  /** No reported failure exactly when the draft is acceptable. */
  lemma NoFailuresIffAcceptable(d: Draft)
    ensures Failures(d) == [] <==> Acceptable(d)
  {
    var es := Failures(d);
    AcceptableAllPaths(d);
    if es != [] {
      assert es[0].path in PathsOf(es);
    }
  }

  /**
    Validation of a draft: accepted exactly when every path is acceptable,
    otherwise refused with every failing path reported once, in schema order.
  */
  function Validate(d: Draft): (r: Result<Complaint, seq<FieldError>>)
    ensures r.Ok? <==> Acceptable(d)
    ensures r.Ok? ==> r.value == Build(d)
    ensures r.Err? ==> |r.error| > 0 && InSchemaOrder(PathsOf(r.error))
    ensures r.Err? ==> forall p: Path :: p in PathsOf(r.error) <==> !PathOk(d, p)
  {
    var es := Failures(d);
    NoFailuresIffAcceptable(d);
    if es == [] then Ok(Build(d)) else Err(es)
  }

  // ---------------------------------------------------------------------------
  // Properties of validated documents.
  // ---------------------------------------------------------------------------

  /** The enum members `Build` stores are the ones the draft names. */
  lemma BuiltEnums(d: Draft)
    requires Acceptable(d)
    ensures Some(CategoryName(Build(d).category)) == StringValue(d.category.value)
    ensures d.priority.Some? ==> Some(PriorityName(Build(d).priority)) == StringValue(d.priority.value)
    ensures d.status.Some? ==> Some(StatusName(Build(d).status)) == StringValue(d.status.value)
  {
    var b := Build(d);
    assert CategoryOk(d.category);
    assert CategoryNamed(StringValue(d.category.value).value).Some?;
    if d.priority.Some? {
      assert PriorityNamed(StringValue(d.priority.value).value).Some?;
    }
    if d.status.Some? {
      assert StatusNamed(StringValue(d.status.value).value).Some?;
    }
  }

  /**
    What an accepted draft is stored as: the cast values after the setters
    (text trimmed, e-mail also lower-cased), enum values by exact name, and
    the defaults for an absent priority or status.
  */
  lemma ValidatedValues(d: Draft)
    requires Validate(d).Ok?
    ensures var c := Validate(d).value;
      && c.title == Trim(CastText(d.title.value))
      && c.name == Trim(CastText(d.name.value))
      && c.email == Lower(Trim(CastText(d.email.value)))
      && c.description == Trim(CastText(d.description.value))
      && Some(CategoryName(c.category)) == StringValue(d.category.value)
      && (d.priority.None? ==> c.priority == DefaultPriority)
      && (d.priority.Some? ==> Some(PriorityName(c.priority)) == StringValue(d.priority.value))
      && (d.status.None? ==> c.status == DefaultStatus)
      && (d.status.Some? ==> Some(StatusName(c.status)) == StringValue(d.status.value))
      && c.user == d.user.value
  {
    BuiltEnums(d);
  }

  /** What every stored complaint satisfies: required text present, trimmed, e-mail lower-cased. */
  predicate Normalised(c: Complaint) {
    && c.title != "" && Trim(c.title) == c.title
    && c.name != "" && Trim(c.name) == c.name
    && c.description != "" && Trim(c.description) == c.description
    && c.email != "" && Trim(c.email) == c.email && Lower(c.email) == c.email
  }

  /** An acceptable text path is stored non-empty and already trimmed. */
  lemma StoredTextNormalised(v: Option<Json>)
    requires TextOk(v)
    ensures var t := Trim(CastText(v.value)); t != "" && Trim(t) == t
  {
    if v.value.JNum? || v.value.JBool? {
      PrimitiveTrimNonEmpty(v.value);
    }
    TrimIdempotent(CastText(v.value));
  }

  /** An acceptable e-mail is stored non-empty, trimmed and lower-cased. */
  lemma StoredEmailNormalised(v: Option<Json>)
    requires TextOk(v)
    ensures var e := Lower(Trim(CastText(v.value))); e != "" && Trim(e) == e && Lower(e) == e
  {
    StoredTextNormalised(v);
    var t := Trim(CastText(v.value));
    LowerTrimCommute(t);
    LowerIdempotent(t);
  }

  /** Every document that validates is normalised. */
  lemma ValidatedIsNormalised(d: Draft)
    requires Validate(d).Ok?
    ensures Normalised(Validate(d).value)
  {
    StoredTextNormalised(d.title);
    StoredTextNormalised(d.name);
    StoredTextNormalised(d.description);
    StoredEmailNormalised(d.email);
  }

  /** The draft a stored document reads back as. */
  function DraftOf(c: Complaint): Draft {
    Draft(Some(JStr(c.title)), Some(JStr(c.name)), Some(JStr(c.email)),
          Some(JStr(CategoryName(c.category))), Some(JStr(c.description)),
          Some(JStr(PriorityName(c.priority))), Some(JStr(StatusName(c.status))), Some(c.user))
  }

  /** Each enum member is found again by its name. */
  lemma NamesRoundTrip(c: Category, p: Priority, t: Status)
    ensures CategoryNamed(CategoryName(c)) == Some(c)
    ensures PriorityNamed(PriorityName(p)) == Some(p)
    ensures StatusNamed(StatusName(t)) == Some(t)
  {
  }

  /** The enum paths of any stored document, read back, name their members. */
  lemma DraftOfEnumsOk(c: Complaint)
    ensures CategoryOk(DraftOf(c).category) && PriorityOk(DraftOf(c).priority) && StatusOk(DraftOf(c).status)
  {
    assert CategoryName(c.category) == StringValue(DraftOf(c).category.value).value;
    assert PriorityName(c.priority) == StringValue(DraftOf(c).priority.value).value;
    assert StatusName(c.status) == StringValue(DraftOf(c).status.value).value;
  }

  /** A normalised document, read back as a draft, passes every path. */
  lemma DraftOfAcceptable(c: Complaint)
    requires Normalised(c)
    ensures Acceptable(DraftOf(c))
  {
    DraftOfEnumsOk(c);
  }

  /** Validation is a fixpoint on normalised documents: re-validating a stored complaint returns it unchanged. */
  lemma RevalidateNormalised(c: Complaint)
    requires Normalised(c)
    ensures Validate(DraftOf(c)) == Ok(c)
  {
    var d := DraftOf(c);
    DraftOfAcceptable(c);
    NamesRoundTrip(c.category, c.priority, c.status);
    var b := Build(d);
    assert b.title == c.title && b.name == c.name && b.email == c.email && b.description == c.description;
    BuiltEnums(d);
    NamesRoundTrip(b.category, b.priority, b.status);
    assert b.category == c.category by {
      assert CategoryName(b.category) == CategoryName(c.category);
    }
    assert b.priority == c.priority by {
      assert d.priority == Some(JStr(PriorityName(c.priority)));
      assert StringValue(d.priority.value) == Some(PriorityName(c.priority));
    }
    assert b.status == c.status by {
      assert d.status == Some(JStr(StatusName(c.status)));
      assert StringValue(d.status.value) == Some(StatusName(c.status));
    }
  }

  /**
    An accepted category was given as one of the four names, either as a
    string or as an object's `_id`; a number or boolean is never coerced
    into a category.
  */
  lemma CategoryExact(d: Draft)
    requires Validate(d).Ok?
    ensures d.category.Some? && (d.category.value.JStr? || d.category.value.JObj?)
    ensures StringValue(d.category.value).Some?
    ensures StringValue(d.category.value).value in {"Electricity", "Water", "Road", "Internet"}
  {
    assert PathOk(d, CategoryPath);
  }
}
