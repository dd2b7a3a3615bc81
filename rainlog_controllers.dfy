/**
 * The record handlers of src/controllers/rainlogControllers.ts: the shared
 * validation check, the create handler and the fetch-by-id handler. Both
 * handlers are wrapped in `catchAsync`, so a rejection of the store surfaces
 * as the guard's 500 response; there is no 409 branch.
 */
module RainlogControllers {
  import opened Wrappers
  import opened RainlogTypes
  import opened Http
  import opened AsyncGuard
  import opened RainlogValidations
  import opened RainlogModel

  const InvalidInputMessage := "Invalid input data"
  const AddedMessage := "Rainlog added successfully"
  const NotFoundMessage := "Rainlog not found"

  /** The answer to a request that failed its validation chains. */
  function InvalidInput(errors: seq<FieldError>): Response
  {
    Response(400, None, Envelope(Fail, Some(InvalidInputMessage), None, Some(errors)))
  }

  /** The answer when no record has the requested identifier. */
  const NotFound := Response(404, None, Envelope(Fail, Some(NotFoundMessage), None, None))

  /** `checkValidation`: a 400 answer carrying the errors exactly when there are any, otherwise nothing. */
  function CheckValidation(errors: seq<FieldError>): (r: Option<Response>)
    ensures r.None? <==> errors == []
    ensures r.Some? ==> r.value.code == 400 && r.value.body.status == Fail
    ensures r.Some? ==> r.value.body.message == Some(InvalidInputMessage) && r.value.body.errors == Some(errors)
  {
    if errors != [] then Some(InvalidInput(errors)) else None
  }

  /** How the store casts a body value for a date field: a date, `null`, or something else. */
  function DateField(v: Option<Json>): Field<Date>
  {
    match v
    case None => Undefined
    case Some(JNull) => Null
    case Some(JDate(d)) => Given(d)
    case Some(_) => Uncastable
  }

  /** How the store casts a body value for a number field. */
  function NumberField(v: Option<Json>): Field<real>
  {
    match v
    case None => Undefined
    case Some(JNull) => Null
    case Some(JNum(n)) => Given(n)
    case Some(_) => Uncastable
  }

  /** How the store casts a body value for a boolean field. */
  function BooleanField(v: Option<Json>): Field<bool>
  {
    match v
    case None => Undefined
    case Some(JNull) => Null
    case Some(JBool(b)) => Given(b)
    case Some(_) => Uncastable
  }

  /** How the store casts a body value for a string field. */
  function StringField(v: Option<Json>): Field<string>
  {
    match v
    case None => Undefined
    case Some(JNull) => Null
    case Some(JStr(s)) => Given(s)
    case Some(_) => Uncastable
  }

  /**
   * The object the create handler passes to the store: the four checked
   * fields from the body, the server's time as `timestamp` and the attached
   * user's email (`req.user?.email`) as `loggedBy`; `records` is not passed.
   */
  function NewRainlog(body: map<string, Json>, user: Option<User>, now: Date): (c: Candidate)
    ensures c.timestamp == Given(now) && c.records.None?
    ensures c.loggedBy == if user.Some? then Given(user.value.email) else Undefined
  {
    Candidate(
      DateField(Lookup(body, "date")),
      None,
      NumberField(Lookup(body, "measurement")),
      BooleanField(Lookup(body, "realReading")),
      StringField(Lookup(body, "location")),
      Given(now),
      if user.Some? then Given(user.value.email) else Undefined)
  }

  /** The create handler's answer once the store settled `create`. */
  function Created(r: Result<Rainlog, Failure>): (s: Settled)
    ensures r.Ok? ==> s == Resolved(Sent(Response(201, None, Envelope(Success, Some(AddedMessage), Some(r.value), None))))
    ensures r.Err? ==> s == Rejected(r.error)
  {
    match r
    case Ok(d) => Resolved(Sent(Response(201, None, Envelope(Success, Some(AddedMessage), Some(d), None))))
    case Err(e) => Rejected(e)
  }

  /**
   * The handler inside `addRainlogToDatabase`: validation errors are answered
   * with 400 before the store is touched; otherwise the record is created and
   * answered with 201, or the promise rejects with the store's failure.
   */
  method AddRainlogToDatabase(store: RainlogStore, req: Request, now: Date, id: ObjectId) returns (s: Settled)
    requires store.Valid()
    modifies store
    ensures store.Valid()
    ensures req.validationErrors != [] ==>
      s == Resolved(Sent(InvalidInput(req.validationErrors))) && store.docs == old(store.docs)
    ensures req.validationErrors == [] ==>
      var r := Insert(old(store.docs), NewRainlog(req.body, req.user, now), now, id);
      s == Created(r) && store.docs == (if r.Ok? then old(store.docs) + [r.value] else old(store.docs))
  {
    var validation := CheckValidation(req.validationErrors);
    if validation.Some? {
      return Resolved(Sent(validation.value));
    }
    var r := store.Create(NewRainlog(req.body, req.user, now), now, id);
    s := Created(r);
  }

  /**
   * What the handler inside `getRainlogById` settles with, given the stored
   * records, the errors the validation chain recorded and the query id:
   * validation errors give 400; no id gives no record (404); an id that is
   * not an object id rejects; otherwise the record is answered with 200, or
   * 404 when there is none. `castId` is the store's cast of a string to an
   * object id.
   */
  function Fetched(docs: seq<Rainlog>, errors: seq<FieldError>, queryId: Option<string>,
                   castId: string -> Option<ObjectId>): (s: Settled)
    ensures errors != [] ==> s == Resolved(Sent(InvalidInput(errors)))
    ensures errors == [] && queryId.None? ==> s == Resolved(Sent(NotFound))
    ensures errors == [] && queryId.Some? && castId(queryId.value).None? ==>
      s == Rejected(CastToObjectIdFailed(queryId.value))
    ensures errors == [] && queryId.Some? && castId(queryId.value).Some? ==>
      s == Found(Find(docs, castId(queryId.value).value))
  {
    if errors != [] then Resolved(Sent(InvalidInput(errors)))
    // `findById(undefined)` looks for `_id: null`, which no record has
    else if queryId.None? then Resolved(Sent(NotFound))
    else match castId(queryId.value)
      case None => Rejected(CastToObjectIdFailed(queryId.value))
      case Some(id) => Found(Find(docs, id))
  }

  /** The handler inside `getRainlogById`: it only reads the store. */
  method GetRainlogById(store: RainlogStore, req: Request, castId: string -> Option<ObjectId>) returns (s: Settled)
    ensures s == Fetched(store.docs, req.validationErrors, req.queryId, castId)
  {
    var validation := CheckValidation(req.validationErrors);
    if validation.Some? {
      return Resolved(Sent(validation.value));
    }
    if req.queryId.None? {
      return Resolved(Sent(NotFound));
    }
    var id := castId(req.queryId.value);
    if id.None? {
      return Rejected(CastToObjectIdFailed(req.queryId.value));
    }
    var rainlog := store.FindById(id.value);
    s := Found(rainlog);
  }

  /** The fetch handler's answer to a lookup: 404 on a miss, 200 with the record on a hit. */
  function Found(rainlog: Option<Rainlog>): (s: Settled)
    ensures rainlog.None? ==> s == Resolved(Sent(NotFound))
    ensures rainlog.Some? ==> s == Resolved(Sent(Response(200, None, Envelope(Success, None, Some(rainlog.value), None))))
  {
    match rainlog
    case None => Resolved(Sent(NotFound))
    case Some(r) => Resolved(Sent(Response(200, None, Envelope(Success, None, Some(r), None))))
  }

  // ----- properties of the handlers -----

  /** What the client sends as `loggedBy`, `timestamp`, `records` or any other unchecked field is ignored by create. */
  lemma ClientStampsIgnored(body: map<string, Json>, user: Option<User>, now: Date, k: string, v: Json)
    requires k !in Fields
    ensures NewRainlog(body[k := v], user, now) == NewRainlog(body, user, now)
  {
    assert Lookup(body[k := v], "date") == Lookup(body, "date");
    assert Lookup(body[k := v], "measurement") == Lookup(body, "measurement");
    assert Lookup(body[k := v], "realReading") == Lookup(body, "realReading");
    assert Lookup(body[k := v], "location") == Lookup(body, "location");
  }

  /**
   * A body that passes the create validator (see
   * `ValidateAcceptsExactlyWellFormed`), from a user with an email, is
   * stored with the coerced date, the number, the boolean and the location
   * sent, the server's time and the user's email; it is refused only by the
   * unique indexes.
   */
  lemma ValidatedBodyIsStored(lib: Recognisers, docs: seq<Rainlog>, body: map<string, Json>, user: User,
                              now: Date, id: ObjectId)
    requires WellFormed(lib, body)
    requires lib.toDate(body["date"]).Some? && user.email != ""
    ensures var r := Insert(docs, NewRainlog(Validate(lib, body).body, Some(user), now), now, id);
      && (r.Ok? || r == Err(DuplicateKey))
      && (r.Ok? ==>
            && r.value.date == lib.toDate(body["date"]).value
            && r.value.measurement >= 0.0
            && r.value.realReading == lib.booleanValue(body["realReading"])
            && JStr(r.value.location) == body["location"]
            && r.value.timestamp == now && r.value.loggedBy == user.email && r.value.records == [])
  {
    var c := NewRainlog(Validate(lib, body).body, Some(user), now);
    ValidatedCandidate(lib, body, user, now);
    assert Filled(WithDefaults(c, now));
    InsertAcceptsExactly(docs, c, now, id);
    if Insert(docs, c, now, id).Ok? {
      InsertedRecord(docs, c, now, id);
    }
  }

  /** The candidate the create handler builds from a body the create validator accepted, field by field. */
  lemma ValidatedCandidate(lib: Recognisers, body: map<string, Json>, user: User, now: Date)
    requires WellFormed(lib, body)
    requires lib.toDate(body["date"]).Some?
    ensures var c := NewRainlog(Validate(lib, body).body, Some(user), now);
      && c.date == Given(lib.toDate(body["date"]).value)
      && c.measurement.Given? && c.measurement.value >= 0.0
      && c.realReading == Given(lib.booleanValue(body["realReading"]))
      && c.location == Given(body["location"].s) && c.location.value != ""
      && c.loggedBy == Given(user.email)
  {
    ValidateAcceptsExactlyWellFormed(lib, body);
    var out := Validate(lib, body).body;
    CandidateFields(out, user, now);
  }

  /** The fields of the candidate built from a body holding a date, a number, a boolean and a string. */
  lemma CandidateFields(out: map<string, Json>, user: User, now: Date)
    requires "date" in out && out["date"].JDate?
    requires "measurement" in out && out["measurement"].JNum?
    requires "realReading" in out && out["realReading"].JBool?
    requires "location" in out && out["location"].JStr?
    ensures var c := NewRainlog(out, Some(user), now);
      && c.date == Given(out["date"].d) && c.measurement == Given(out["measurement"].n)
      && c.realReading == Given(out["realReading"].b) && c.location == Given(out["location"].s)
      && c.loggedBy == Given(user.email)
  {
  }

  /**
   * The store's refusals are not answered by the handler: a duplicate
   * `(date, location)` or a document without a user email reaches the guard
   * and becomes its 500 `fail`, never a 409.
   */
  lemma StoreRefusalIsInternalError(docs: seq<Rainlog>, body: map<string, Json>, user: Option<User>,
                                    now: Date, id: ObjectId)
    requires Insert(docs, NewRainlog(body, user, now), now, id).Err?
    ensures CatchAsync(Created(Insert(docs, NewRainlog(body, user, now), now, id))) == Sent(InternalError)
    ensures CatchAsync(Created(Insert(docs, NewRainlog(body, user, now), now, id))).response.code != 409
  {
  }

  /** A request whose user carries no email passes validation but cannot be stored: "A user must be provided". */
  lemma MissingEmailRefused(docs: seq<Rainlog>, body: map<string, Json>, user: Option<User>, now: Date, id: ObjectId)
    requires user.None? || user.value.email == ""
    ensures RefusedWith(docs, NewRainlog(body, user, now), now, id, Required("loggedBy", LoggedByMissing))
  {
    RequiredFields(docs, NewRainlog(body, user, now), now, id);
  }

  /** A record just created is what a fetch by a query id that casts to its identifier answers with. */
  lemma FetchAfterCreate(docs: seq<Rainlog>, c: Candidate, now: Date, id: ObjectId,
                         q: string, castId: string -> Option<ObjectId>)
    requires Insert(docs, c, now, id).Ok?
    requires castId(q) == Some(id)
    ensures var d := Insert(docs, c, now, id).value;
      Fetched(docs + [d], [], Some(q), castId) == Resolved(Sent(Response(200, None, Envelope(Success, None, Some(d), None))))
  {
    var d := Insert(docs, c, now, id).value;
    FindAfterInsert(docs, d, id);
  }
}
