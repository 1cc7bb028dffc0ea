/** The document schema of backend/models/PRD.js: the shape of a stored PRD,
    its two required fields, the `createdAt` default, and the casting of the
    JSON values a document is built from. */
module PrdSchema {
  import opened PrdTypes

  /** A JSON value as it arrives in a request body. A `Date` travels as its
      millisecond count. */
  datatype Json = JNull | JBool(b: bool) | JNum(n: int) | JStr(s: string) | JList(items: seq<Json>)

  /** A stored PRD. `id` is the identifier the store assigns; absent
      optional strings are `None`, absent string lists are empty. */
  datatype PrdDocument = PrdDocument(
    id: nat,
    userId: string,
    title: string,
    problemStatement: Option<string>,
    targetAudience: Option<string>,
    goals: Option<string>,
    features: Option<string>,
    constraints: Option<string>,
    objectives: seq<string>,
    userStories: seq<string>,
    requirements: seq<string>,
    acceptanceCriteria: seq<string>,
    metrics: seq<string>,
    risks: seq<string>,
    createdAt: Time)

  /** The paths the schema declares. */
  const SchemaPaths: set<string> :=
    {"userId", "title", "problemStatement", "targetAudience", "goals", "features", "constraints",
     "objectives", "userStories", "requirements", "acceptanceCriteria", "metrics", "risks", "createdAt"}

  /** The schema's `required` constraints: an owner and a non-empty title
      (a required string rejects the empty string). */
  predicate Valid(doc: PrdDocument)
  {
    doc.userId != "" && doc.title != ""
  }

  /** Casting an optional string path: absent or null is unset, a string is
      kept, anything else is a cast error (the outer `None`). */
  function CastString(input: map<string, Json>, path: string): (r: Option<Option<string>>)
    ensures path !in input ==> r == Some(None)
    ensures path in input && input[path].JNull? ==> r == Some(None)
    ensures path in input && input[path].JStr? ==> r == Some(Some(input[path].s))
    ensures path in input && !input[path].JNull? && !input[path].JStr? ==> r == None
  {
    if path !in input then Some(None)
    else match input[path]
      case JNull => Some(None)
      case JStr(s) => Some(Some(s))
      case _ => None
  }

  /** The strings of a list of JSON values, when all of them are strings. */
  function Strings(items: seq<Json>): (r: Option<seq<string>>)
    ensures r.Some? ==> |r.value| == |items|
    ensures r.Some? <==> forall i :: 0 <= i < |items| ==> items[i].JStr?
    ensures r.Some? ==> forall i :: 0 <= i < |items| ==> items[i] == JStr(r.value[i])
  {
    if items == [] then Some([])
    else match (items[0], Strings(items[1..]))
      case (JStr(s), Some(rest)) => Some([s] + rest)
      case _ => None
  }

  /** The JSON form of a list of strings. */
  function StringsJson(xs: seq<string>): (items: seq<Json>)
    ensures |items| == |xs|
    ensures forall i :: 0 <= i < |xs| ==> items[i] == JStr(xs[i])
  {
    seq(|xs|, i requires 0 <= i < |xs| => JStr(xs[i]))
  }

  /** Reading a list of strings back from its JSON form gives it back. */
  lemma {:induction false} StringsRoundTrip(xs: seq<string>)
    ensures Strings(StringsJson(xs)) == Some(xs)
  {
    if xs != [] {
      var items := StringsJson(xs);
      StringsRoundTrip(xs[1..]);
      assert items[1..] == StringsJson(xs[1..]);
      assert items[0] == JStr(xs[0]);
      assert [xs[0]] + xs[1..] == xs;
    }
  }

  /** Casting a `[String]` path: absent or null is the empty list, a list of
      strings is kept, anything else is a cast error. */
  function CastStringList(input: map<string, Json>, path: string): (r: Option<seq<string>>)
    ensures path !in input ==> r == Some([])
  {
    if path !in input then Some([])
    else match input[path]
      case JNull => Some([])
      case JList(items) => Strings(items)
      case _ => None
  }

  /** The `createdAt` path: a supplied date is kept, otherwise the default
      `Date.now` (here `now`) applies. */
  function CastDate(input: map<string, Json>, now: Time): (r: Option<Time>)
    ensures "createdAt" !in input ==> r == Some(now)
  {
    if "createdAt" !in input then Some(now)
    else match input["createdAt"]
      case JNull => Some(now)
      case JNum(n) => if n >= 0 then Some(n) else None
      case _ => None
  }

  /** `new PRD(input)` followed by validation on save: the document with
      identifier `id` when every declared path casts and the required paths
      hold, and `None` when validation fails. */
  function NewDocument(input: map<string, Json>, id: nat, now: Time): (doc: Option<PrdDocument>)
    ensures doc.Some? ==> Valid(doc.value) && doc.value.id == id
    ensures doc.Some? ==> "userId" in input && input["userId"] == JStr(doc.value.userId)
    ensures doc.Some? ==> "title" in input && input["title"] == JStr(doc.value.title)
    ensures "createdAt" !in input && doc.Some? ==> doc.value.createdAt == now
  {
    var userId, title := CastString(input, "userId"), CastString(input, "title");
    var problemStatement, targetAudience := CastString(input, "problemStatement"), CastString(input, "targetAudience");
    var goals, features, constraints := CastString(input, "goals"), CastString(input, "features"), CastString(input, "constraints");
    var objectives, userStories := CastStringList(input, "objectives"), CastStringList(input, "userStories");
    var requirements, acceptanceCriteria := CastStringList(input, "requirements"), CastStringList(input, "acceptanceCriteria");
    var metrics, risks := CastStringList(input, "metrics"), CastStringList(input, "risks");
    var createdAt := CastDate(input, now);
    if userId.None? || title.None? || problemStatement.None? || targetAudience.None? || goals.None?
       || features.None? || constraints.None? || objectives.None? || userStories.None? || requirements.None?
       || acceptanceCriteria.None? || metrics.None? || risks.None? || createdAt.None?
    then None
    else if userId.value.None? || userId.value.value == "" || title.value.None? || title.value.value == ""
    then None
    else Some(PrdDocument(id, userId.value.value, title.value.value,
                          problemStatement.value, targetAudience.value, goals.value, features.value, constraints.value,
                          objectives.value, userStories.value, requirements.value, acceptanceCriteria.value,
                          metrics.value, risks.value, createdAt.value))
  }

  /** The JSON form of one declared path of a document. */
  function JsonField(doc: PrdDocument, path: string): Json
  {
    match path
    case "userId" => JStr(doc.userId)
    case "title" => JStr(doc.title)
    case "problemStatement" => OptionalJson(doc.problemStatement)
    case "targetAudience" => OptionalJson(doc.targetAudience)
    case "goals" => OptionalJson(doc.goals)
    case "features" => OptionalJson(doc.features)
    case "constraints" => OptionalJson(doc.constraints)
    case "objectives" => JList(StringsJson(doc.objectives))
    case "userStories" => JList(StringsJson(doc.userStories))
    case "requirements" => JList(StringsJson(doc.requirements))
    case "acceptanceCriteria" => JList(StringsJson(doc.acceptanceCriteria))
    case "metrics" => JList(StringsJson(doc.metrics))
    case "risks" => JList(StringsJson(doc.risks))
    case _ => JNum(doc.createdAt)
  }

  function OptionalJson(value: Option<string>): Json
  {
    if value.Some? then JStr(value.value) else JNull
  }

  /** A document as JSON, without its identifier; unset strings are null. */
  function Encode(doc: PrdDocument): (input: map<string, Json>)
    ensures input.Keys == SchemaPaths
  {
    map path | path in SchemaPaths :: JsonField(doc, path)
  }

  /** Every optional string of a document casts back from its JSON form. */
  lemma EncodeStrings(doc: PrdDocument)
    ensures var input := Encode(doc);
      && CastString(input, "userId") == Some(Some(doc.userId))
      && CastString(input, "title") == Some(Some(doc.title))
      && CastString(input, "problemStatement") == Some(doc.problemStatement)
      && CastString(input, "targetAudience") == Some(doc.targetAudience)
      && CastString(input, "goals") == Some(doc.goals)
      && CastString(input, "features") == Some(doc.features)
      && CastString(input, "constraints") == Some(doc.constraints)
  {
  }

  /** Every string list of a document, and its date, cast back from its
      JSON form. */
  lemma EncodeLists(doc: PrdDocument, now: Time)
    ensures var input := Encode(doc);
      && CastStringList(input, "objectives") == Some(doc.objectives)
      && CastStringList(input, "userStories") == Some(doc.userStories)
      && CastStringList(input, "requirements") == Some(doc.requirements)
      && CastStringList(input, "acceptanceCriteria") == Some(doc.acceptanceCriteria)
      && CastStringList(input, "metrics") == Some(doc.metrics)
      && CastStringList(input, "risks") == Some(doc.risks)
      && CastDate(input, now) == Some(doc.createdAt)
  {
    var input := Encode(doc);
    ListPath(input, "objectives", doc.objectives);
    ListPath(input, "userStories", doc.userStories);
    ListPath(input, "requirements", doc.requirements);
    ListPath(input, "acceptanceCriteria", doc.acceptanceCriteria);
    ListPath(input, "metrics", doc.metrics);
    ListPath(input, "risks", doc.risks);
  }

  lemma ListPath(input: map<string, Json>, path: string, xs: seq<string>)
    requires path in input && input[path] == JList(StringsJson(xs))
    ensures CastStringList(input, path) == Some(xs)
  {
    StringsRoundTrip(xs);
  }

  /** The schema builds a given valid document from any input whose
      declared paths all cast to that document's fields. */
  lemma BuildsDocument(input: map<string, Json>, now: Time, doc: PrdDocument)
    requires Valid(doc)
    requires CastString(input, "userId") == Some(Some(doc.userId))
    requires CastString(input, "title") == Some(Some(doc.title))
    requires CastString(input, "problemStatement") == Some(doc.problemStatement)
    requires CastString(input, "targetAudience") == Some(doc.targetAudience)
    requires CastString(input, "goals") == Some(doc.goals)
    requires CastString(input, "features") == Some(doc.features)
    requires CastString(input, "constraints") == Some(doc.constraints)
    requires CastStringList(input, "objectives") == Some(doc.objectives)
    requires CastStringList(input, "userStories") == Some(doc.userStories)
    requires CastStringList(input, "requirements") == Some(doc.requirements)
    requires CastStringList(input, "acceptanceCriteria") == Some(doc.acceptanceCriteria)
    requires CastStringList(input, "metrics") == Some(doc.metrics)
    requires CastStringList(input, "risks") == Some(doc.risks)
    requires CastDate(input, now) == Some(doc.createdAt)
    ensures NewDocument(input, doc.id, now) == Some(doc)
  {
  }

  /** Every valid document is what the schema builds from its JSON form: the
      schema loses nothing it accepts. */
  lemma EncodeRoundTrip(doc: PrdDocument, now: Time)
    requires Valid(doc)
    ensures NewDocument(Encode(doc), doc.id, now) == Some(doc)
  {
    EncodeStrings(doc);
    EncodeLists(doc, now);
    BuildsDocument(Encode(doc), now, doc);
  }

  /** Only declared paths matter: keys outside the schema are ignored. */
  lemma UndeclaredPathsIgnored(input: map<string, Json>, id: nat, now: Time)
    ensures NewDocument(input, id, now) == NewDocument(map k | k in input && k in SchemaPaths :: input[k], id, now)
  {
  }

  /** A document without an owner, or without a non-empty title, is never
      built. */
  lemma RequiredPaths(input: map<string, Json>, id: nat, now: Time)
    requires "userId" !in input || "title" !in input || input["title"] == JStr("") || input["userId"] == JStr("")
    ensures NewDocument(input, id, now) == None
  {
  }
}
