/** The PRD routes of backend/routes/prdRoutes.js over an in-memory,
    append-only collection: `POST /` creates a record for the `userId` in the
    body, `GET /:userId` lists that owner's records. There is no update or
    delete route. */
module PrdRoutes {
  import opened PrdTypes
  import opened PrdSchema
  import Assembler

  /** The thirteen fields the create handler destructures from the body. */
  const BodyFields: set<string> :=
    {"userId", "title", "problemStatement", "targetAudience", "goals", "features", "constraints",
     "objectives", "userStories", "requirements", "acceptanceCriteria", "metrics", "risks"}

  /** An HTTP status and the `message` of the JSON reply. */
  datatype Response = Response(status: nat, message: string)

  const MissingUserId := Response(400, "Missing userId")
  const Saved := Response(201, "PRD saved successfully!")
  const SaveError := Response(500, "Server error while saving PRD")
  const FetchError := Response(500, "Error fetching PRDs")

  /** The reply of the list handler: the owner's records, or an error. */
  datatype ListResult = Found(prds: seq<PrdDocument>) | Failed(response: Response)

  /** `body[key]`, with `None` for JavaScript's `undefined`. */
  function Lookup(body: map<string, Json>, key: string): Option<Json>
  {
    if key in body then Some(body[key]) else None
  }

  /** JavaScript truthiness of a body value: `undefined`, `null`, `false`,
      `0` and `""` are false; every array is true. */
  predicate Truthy(v: Option<Json>)
  {
    match v
    case None => false
    case Some(JNull) => false
    case Some(JBool(b)) => b
    case Some(JNum(n)) => n != 0
    case Some(JStr(s)) => s != ""
    case Some(JList(_)) => true
  }

  /** The object handed to `new PRD(...)`: the destructured fields only,
      an absent one being `undefined` and so unset. */
  function Picked(body: map<string, Json>): (input: map<string, Json>)
    ensures input.Keys == body.Keys * BodyFields
    ensures forall k :: k in input ==> input[k] == body[k]
  {
    map k | k in body && k in BodyFields :: body[k]
  }

  /** The create handler as a function of the stored records: its reply and
      the records afterwards. `writable` is false when the database refuses
      the write. Records are only ever appended, and one is appended exactly
      when the reply is 201, which carries a message and no identifier. */
  function CreateOutcome(records: seq<PrdDocument>, body: map<string, Json>, now: Time, writable: bool)
    : (outcome: (Response, seq<PrdDocument>))
    ensures records <= outcome.1 && |outcome.1| <= |records| + 1
    ensures outcome.0.status == 201 <==> |outcome.1| == |records| + 1
    ensures outcome.0 in {MissingUserId, Saved, SaveError}
  {
    if !Truthy(Lookup(body, "userId")) then (MissingUserId, records)
    else match NewDocument(Picked(body), |records|, now)
      case None => (SaveError, records)
      case Some(doc) => if writable then (Saved, records + [doc]) else (SaveError, records)
  }

  /** A body without a truthy `userId` is refused with 400 before anything
      is built, and a failing save is a 500; neither stores anything. */
  lemma CreateErrors(records: seq<PrdDocument>, body: map<string, Json>, now: Time, writable: bool)
    ensures !Truthy(Lookup(body, "userId")) ==> CreateOutcome(records, body, now, writable) == (MissingUserId, records)
    ensures !writable ==> CreateOutcome(records, body, now, writable).1 == records
    ensures "title" !in body ==> CreateOutcome(records, body, now, writable).1 == records
  {
  }

  /** Only the thirteen destructured fields reach the store: any other key
      of the body, `createdAt` and `id` among them, changes nothing, and a
      stored record always carries the server's time and the next identifier. */
  lemma CreateIgnoresOtherKeys(records: seq<PrdDocument>, body: map<string, Json>, now: Time, writable: bool)
    ensures CreateOutcome(records, body, now, writable) == CreateOutcome(records, Picked(body), now, writable)
    ensures var (response, after) := CreateOutcome(records, body, now, writable);
      response == Saved ==> after[|records|].createdAt == now && after[|records|].id == |records|
  {
    var picked := Picked(body);
    assert Picked(picked) == picked;
    assert Lookup(picked, "userId") == Lookup(body, "userId");
    assert "createdAt" !in picked;
  }

  /** The records of one owner, in stored order. */
  function OwnedBy(records: seq<PrdDocument>, owner: string): (owned: seq<PrdDocument>)
    ensures forall d :: d in owned <==> d in records && d.userId == owner
    ensures |owned| <= |records|
  {
    if records == [] then []
    else (if records[0].userId == owner then [records[0]] else []) + OwnedBy(records[1..], owner)
  }

  /** Appending a record extends exactly its owner's list. */
  lemma {:induction false} OwnedByAppend(records: seq<PrdDocument>, doc: PrdDocument, owner: string)
    ensures OwnedBy(records + [doc], owner) == OwnedBy(records, owner) + (if doc.userId == owner then [doc] else [])
  {
    if records == [] {
      assert [] + [doc] == [doc];
    } else {
      assert (records + [doc])[1..] == records[1..] + [doc];
      OwnedByAppend(records[1..], doc, owner);
    }
  }

  /** The store's invariant: identifiers are positions, hence unique, and
      every stored record satisfies the schema. */
  ghost predicate Stored(records: seq<PrdDocument>)
  {
    forall i :: 0 <= i < |records| ==> records[i].id == i && Valid(records[i])
  }

  /** A successful create followed by a list for the new record's owner
      shows the new record after that owner's earlier ones; every other
      owner's list is unchanged, and so is every list after a failed create. */
  lemma CreateThenList(records: seq<PrdDocument>, body: map<string, Json>, now: Time, writable: bool, owner: string)
    requires Stored(records)
    ensures var (response, after) := CreateOutcome(records, body, now, writable);
      && Stored(after)
      && (response == Saved ==>
            var doc := after[|records|];
            && Lookup(body, "userId") == Some(JStr(doc.userId))
            && OwnedBy(after, doc.userId) == OwnedBy(records, doc.userId) + [doc]
            && (owner != doc.userId ==> OwnedBy(after, owner) == OwnedBy(records, owner)))
      && (response != Saved ==> OwnedBy(after, owner) == OwnedBy(records, owner))
  {
    var (response, after) := CreateOutcome(records, body, now, writable);
    if response == Saved {
      var doc := after[|records|];
      assert after == records + [doc];
      OwnedByAppend(records, doc, doc.userId);
      OwnedByAppend(records, doc, owner);
    }
  }

  /** The JSON body the client posts for a generated record:
      `{ ...generatedPRD, userId }`, its `createdAt` serialised as text. */
  function ClientBody(prd: Prd, userId: string, createdAtText: string): (body: map<string, Json>)
    ensures BodyFields <= body.Keys
  {
    map[
      "userId" := JStr(userId),
      "title" := JStr(prd.title),
      "problemStatement" := JStr(prd.problemStatement),
      "targetAudience" := JStr(prd.targetAudience),
      "goals" := JStr(prd.goals),
      "features" := JStr(prd.features),
      "constraints" := JStr(prd.constraints),
      "objectives" := JList(StringsJson(prd.objectives)),
      "userStories" := JList(StringsJson(prd.userStories)),
      "requirements" := JList(StringsJson(prd.requirements)),
      "acceptanceCriteria" := JList(StringsJson(prd.acceptanceCriteria)),
      "metrics" := JList(StringsJson(prd.metrics)),
      "risks" := JList(StringsJson(prd.risks)),
      "createdAt" := JStr(createdAtText)]
  }

  /** Every assembled record, posted with a non-empty owner, passes the
      schema (its title is never empty) and is stored with all its content,
      but with the server's time in place of the client's. */
  lemma AssembledPrdIsStored(records: seq<PrdDocument>, fields: Assembler.Fields, created: Time,
                             userId: string, createdAtText: string, now: Time)
    requires userId != ""
    ensures var prd := Assembler.Assemble(fields, created);
      CreateOutcome(records, ClientBody(prd, userId, createdAtText), now, true)
      == (Saved, records + [PrdDocument(|records|, userId, prd.title,
            Some(prd.problemStatement), Some(prd.targetAudience), Some(prd.goals), Some(prd.features),
            Some(prd.constraints), prd.objectives, prd.userStories, prd.requirements,
            prd.acceptanceCriteria, prd.metrics, prd.risks, now)])
  {
    var prd := Assembler.Assemble(fields, created);
    var body := ClientBody(prd, userId, createdAtText);
    var doc := PrdDocument(|records|, userId, prd.title,
      Some(prd.problemStatement), Some(prd.targetAudience), Some(prd.goals), Some(prd.features),
      Some(prd.constraints), prd.objectives, prd.userStories, prd.requirements,
      prd.acceptanceCriteria, prd.metrics, prd.risks, now);
    ClientStrings(prd, userId, createdAtText);
    ClientLists(prd, userId, createdAtText);
    BuildsDocument(Picked(body), now, doc);
    assert Lookup(body, "userId") == Some(JStr(userId));
  }

  /** The string fields of a posted record reach the schema unchanged. */
  lemma ClientStrings(prd: Prd, userId: string, createdAtText: string)
    ensures var input := Picked(ClientBody(prd, userId, createdAtText));
      && "createdAt" !in input
      && CastString(input, "userId") == Some(Some(userId))
      && CastString(input, "title") == Some(Some(prd.title))
      && CastString(input, "problemStatement") == Some(Some(prd.problemStatement))
      && CastString(input, "targetAudience") == Some(Some(prd.targetAudience))
      && CastString(input, "goals") == Some(Some(prd.goals))
      && CastString(input, "features") == Some(Some(prd.features))
      && CastString(input, "constraints") == Some(Some(prd.constraints))
  {
    var body := ClientBody(prd, userId, createdAtText);
    var input := Picked(body);
    assert input["userId"] == body["userId"] == JStr(userId);
    assert input["title"] == body["title"] == JStr(prd.title);
    assert input["problemStatement"] == body["problemStatement"] == JStr(prd.problemStatement);
    assert input["targetAudience"] == body["targetAudience"] == JStr(prd.targetAudience);
    assert input["goals"] == body["goals"] == JStr(prd.goals);
    assert input["features"] == body["features"] == JStr(prd.features);
    assert input["constraints"] == body["constraints"] == JStr(prd.constraints);
  }

  /** The string lists of a posted record reach the schema unchanged. */
  lemma ClientLists(prd: Prd, userId: string, createdAtText: string)
    ensures var input := Picked(ClientBody(prd, userId, createdAtText));
      && CastStringList(input, "objectives") == Some(prd.objectives)
      && CastStringList(input, "userStories") == Some(prd.userStories)
      && CastStringList(input, "requirements") == Some(prd.requirements)
      && CastStringList(input, "acceptanceCriteria") == Some(prd.acceptanceCriteria)
      && CastStringList(input, "metrics") == Some(prd.metrics)
      && CastStringList(input, "risks") == Some(prd.risks)
  {
    var body := ClientBody(prd, userId, createdAtText);
    var input := Picked(body);
    assert input["objectives"] == body["objectives"];
    assert input["userStories"] == body["userStories"];
    assert input["requirements"] == body["requirements"];
    assert input["acceptanceCriteria"] == body["acceptanceCriteria"];
    assert input["metrics"] == body["metrics"];
    assert input["risks"] == body["risks"];
    ListPath(input, "objectives", prd.objectives);
    ListPath(input, "userStories", prd.userStories);
    ListPath(input, "requirements", prd.requirements);
    ListPath(input, "acceptanceCriteria", prd.acceptanceCriteria);
    ListPath(input, "metrics", prd.metrics);
    ListPath(input, "risks", prd.risks);
  }

  /** The in-memory store behind the two routes. */
  class PrdStore {
    var records: seq<PrdDocument>

    ghost predicate Valid()
      reads this
    {
      Stored(records)
    }

    constructor ()
      ensures Valid() && records == []
    {
      records := [];
    }

    /** `POST /`: refuses a body without a truthy `userId` with 400, builds
        the document from the destructured fields, and on a successful save
        appends it and replies 201; a failed save replies 500. */
    method Create(body: map<string, Json>, now: Time, writable: bool) returns (response: Response)
      requires Valid()
      modifies this
      ensures Valid()
      ensures (response, records) == CreateOutcome(old(records), body, now, writable)
    {
      if !Truthy(Lookup(body, "userId")) {
        return MissingUserId;
      }
      var doc := NewDocument(Picked(body), |records|, now);
      if doc.None? || !writable {
        return SaveError;
      }
      records := records + [doc.value];
      response := Saved;
    }

    /** `GET /:userId`: the stored records of `userId`, in an order the
        model does not fix; an owner without records gets an empty list.
        When the database cannot be read the reply is a 500. */
    method ListByOwner(userId: string, readable: bool) returns (result: ListResult)
      ensures readable ==> result.Found? && multiset(result.prds) == multiset(OwnedBy(records, userId))
      ensures readable && (forall d :: d in records ==> d.userId != userId) ==> result == Found([])
      ensures !readable ==> result == Failed(FetchError)
    {
      if !readable {
        return Failed(FetchError);
      }
      var owned := OwnedBy(records, userId);
      if owned != [] {
        assert owned[0] in owned;
      }
      result := Found(owned);
    }
  }
}
