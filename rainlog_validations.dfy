/**
 * The create-request validator of src/validations/rainlog.validations.ts.
 *
 * `addRainlogValidation` is a table of four field chains. Every validator in
 * it is followed by `.bail()`, so a chain reports at most its first failing
 * check; a chain whose checks all pass applies its sanitizer and writes the
 * coerced value back into the body. The recognisers of the validation library
 * are parameters of the model.
 */
module RainlogValidations {
  import opened Wrappers
  import opened RainlogTypes
  import opened Http

  /**
   * The recognisers and converters of the validation library: `isISO8601`,
   * `isFloat` with the number it reads (`toFloat` gives the same number),
   * `isBoolean`, and the sanitizers `toDate` (absent = `null`) and `toBoolean`.
   */
  datatype Recognisers = Recognisers(
    isISO8601: Json -> bool,
    toDate: Json -> Option<Date>,
    isFloat: Json -> bool,
    floatValue: Json -> real,
    isBoolean: Json -> bool,
    booleanValue: Json -> bool)

  /** A validator followed by `.bail()`: the test it applies to the field (absent = `undefined`) and its message. */
  datatype Check = Check(accepts: Option<Json> -> bool, message: string)

  /** One `body(field)` chain: its validators in order, then the sanitizer applied once all of them pass. */
  datatype Chain = Chain(field: string, checks: seq<Check>, coerce: Option<Json -> Json>)

  /** The outcome of running a table of chains: the errors in the order found, and the body as sanitized. */
  datatype Validation = Validation(errors: seq<FieldError>, body: map<string, Json>)

  const DateRequired := "Date is required"
  /**
   * The message of the date's `isISO8601` check. The chain sets it twice: the
   * `withMessage` after the `toDate()` sanitizer applies to the last validator
   * before it, `isISO8601`, and replaces the ISO 8601 text set just after it.
   */
  const DateFormat := "Date must be a valid date"
  const MeasurementRequired := "Measurement is required"
  const MeasurementPositive := "Measurement must be a positive number"
  const RealReadingRequired := "realReading is required"
  const RealReadingBoolean := "realReading must be a boolean"
  const LocationRequired := "Location is required"
  const LocationString := "Location must be a string"
  const LocationEmpty := "Location cannot be empty"

  /** The four fields of the create request, in the order the chains check them. */
  const Fields: seq<string> := ["date", "measurement", "realReading", "location"]

  /** `req.body[field]`, absent when the key is not there. */
  function Lookup(body: map<string, Json>, field: string): Option<Json>
  {
    if field in body then Some(body[field]) else None
  }

  /** What `toDate` writes back: the date, or `null` when the text does not parse. */
  function DateValue(d: Option<Date>): Json
  {
    match d
    case Some(t) => JDate(t)
    case None => JNull
  }

  /** `exists()`: the field is not `undefined`. */
  predicate Present(v: Option<Json>)
  {
    v.Some?
  }

  /** `body('date')`: exists, then isISO8601, then toDate. */
  function DateChain(lib: Recognisers): Chain
  {
    Chain("date",
      [ Check((v: Option<Json>) => Present(v), DateRequired),
        Check((v: Option<Json>) => v.Some? && lib.isISO8601(v.value), DateFormat) ],
      Some((j: Json) => DateValue(lib.toDate(j))))
  }

  /** `body('measurement')`: exists, then isFloat({min: 0}), then toFloat. */
  function MeasurementChain(lib: Recognisers): Chain
  {
    Chain("measurement",
      [ Check((v: Option<Json>) => Present(v), MeasurementRequired),
        Check((v: Option<Json>) => v.Some? && lib.isFloat(v.value) && lib.floatValue(v.value) >= 0.0, MeasurementPositive) ],
      Some((j: Json) => JNum(lib.floatValue(j))))
  }

  /** `body('realReading')`: exists, then isBoolean, then toBoolean. */
  function RealReadingChain(lib: Recognisers): Chain
  {
    Chain("realReading",
      [ Check((v: Option<Json>) => Present(v), RealReadingRequired),
        Check((v: Option<Json>) => v.Some? && lib.isBoolean(v.value), RealReadingBoolean) ],
      Some((j: Json) => JBool(lib.booleanValue(j))))
  }

  /** `body('location')`: exists, then isString, then isLength({min: 1}); no sanitizer. */
  function LocationChain(): Chain
  {
    Chain("location",
      [ Check((v: Option<Json>) => Present(v), LocationRequired),
        Check((v: Option<Json>) => v.Some? && v.value.JStr?, LocationString),
        // a non-string never reaches this check because of the bail before it
        Check((v: Option<Json>) => v.Some? && v.value.JStr? && |v.value.s| >= 1, LocationEmpty) ],
      None)
  }

  /** `addRainlogValidation`: the chains for date, measurement, realReading and location, in that order. */
  function AddRainlogValidation(lib: Recognisers): (chains: seq<Chain>)
    ensures |chains| == |Fields|
    ensures forall i :: 0 <= i < |chains| ==> chains[i].field == Fields[i]
  {
    [DateChain(lib), MeasurementChain(lib), RealReadingChain(lib), LocationChain()]
  }

  /** Check `k` is the first of `checks` to reject `v`. */
  predicate FirstRejectedAt(checks: seq<Check>, v: Option<Json>, k: int)
  {
    0 <= k < |checks| && !checks[k].accepts(v) && forall i :: 0 <= i < k ==> checks[i].accepts(v)
  }

  /** The message of the first check that rejects `v`, if any: what a chain with a bail after every validator reports. */
  function FirstFailure(checks: seq<Check>, v: Option<Json>): (r: Option<string>)
    ensures r.None? <==> forall i :: 0 <= i < |checks| ==> checks[i].accepts(v)
    ensures r.Some? ==> exists k :: FirstRejectedAt(checks, v, k) && r.value == checks[k].message
  {
    if checks == [] then None
    else if !checks[0].accepts(v) then
      assert FirstRejectedAt(checks, v, 0);
      Some(checks[0].message)
    else
      var r := FirstFailure(checks[1..], v);
      assert r.Some? ==> exists k :: FirstRejectedAt(checks, v, k) && r.value == checks[k].message by {
        if r.Some? {
          var k :| FirstRejectedAt(checks[1..], v, k) && r.value == checks[1..][k].message;
          assert FirstRejectedAt(checks, v, k + 1);
        }
      }
      r
  }

  /** The error one chain reports: none, or its first failing check's message with the value it saw. */
  function ChainErrors(c: Chain, body: map<string, Json>): seq<FieldError>
  {
    match FirstFailure(c.checks, Lookup(body, c.field))
    case Some(msg) => [FieldError(c.field, msg, Lookup(body, c.field))]
    case None => []
  }

  /** The chain passes: the field's value is accepted by every check. */
  predicate Passes(c: Chain, body: map<string, Json>)
  {
    FirstFailure(c.checks, Lookup(body, c.field)).None?
  }

  /** The body after one chain: its sanitizer's value written back when the chain passed. */
  function Sanitize(c: Chain, body: map<string, Json>): map<string, Json>
  {
    if c.field in body && c.coerce.Some? && Passes(c, body) then body[c.field := c.coerce.value(body[c.field])]
    else body
  }

  /** Some chain of the table checks field `f`. */
  predicate ChecksField(chains: seq<Chain>, f: string)
  {
    exists i :: 0 <= i < |chains| && chains[i].field == f
  }

  /** Running the chains one after the other, each on the body the previous ones left. */
  function RunChains(chains: seq<Chain>, body: map<string, Json>): (r: Validation)
    ensures r.body.Keys == body.Keys
    ensures forall k :: k in body && !ChecksField(chains, k) ==> r.body[k] == body[k]
    ensures |r.errors| <= |chains|
  {
    if chains == [] then Validation([], body)
    else
      var rest := RunChains(chains[1..], Sanitize(chains[0], body));
      assert forall k :: ChecksField(chains[1..], k) ==> ChecksField(chains, k) by {
        forall k | ChecksField(chains[1..], k) ensures ChecksField(chains, k) {
          var i :| 0 <= i < |chains[1..]| && chains[1..][i].field == k;
          assert chains[i + 1].field == k;
        }
      }
      Validation(ChainErrors(chains[0], body) + rest.errors, rest.body)
  }

  /** The create validator applied to a request body. */
  function Validate(lib: Recognisers, body: map<string, Json>): (r: Validation)
    ensures |r.errors| <= 4
    ensures r.body.Keys == body.Keys
    ensures forall k :: k in body && k !in Fields ==> r.body[k] == body[k]
  {
    var chains := AddRainlogValidation(lib);
    assert forall k :: ChecksField(chains, k) ==> k in Fields;
    RunChains(chains, body)
  }

  /** The same promise as middleware: the chains rewrite `req.body` and record their errors on the request. */
  method ApplyAddRainlogValidation(req: Request, lib: Recognisers)
    modifies req`body, req`validationErrors
    ensures req.body == Validate(lib, old(req.body)).body
    ensures req.validationErrors == old(req.validationErrors) + Validate(lib, old(req.body)).errors
  {
    var v := Validate(lib, req.body);
    req.body := v.body;
    req.validationErrors := req.validationErrors + v.errors;
  }

  // ----- the order of the errors -----

  /** The position of a field in the create request; fields outside it come last. */
  function FieldRank(f: string): nat
  {
    if f == Fields[0] then 0
    else if f == Fields[1] then 1
    else if f == Fields[2] then 2
    else if f == Fields[3] then 3
    else 4
  }

  /** The chains are listed in the order of the request's fields. */
  predicate RankOrdered(chains: seq<Chain>)
  {
    forall i, j :: 0 <= i < j < |chains| ==> FieldRank(chains[i].field) < FieldRank(chains[j].field)
  }

  /** No two chains check the same field. */
  predicate DistinctFields(chains: seq<Chain>)
  {
    forall i, j :: 0 <= i < j < |chains| ==> chains[i].field != chains[j].field
  }

  /** Every error names a field that a chain checks. */
  lemma {:induction false} ErrorsNameCheckedFields(chains: seq<Chain>, body: map<string, Json>)
    ensures forall i :: 0 <= i < |RunChains(chains, body).errors| ==>
      ChecksField(chains, RunChains(chains, body).errors[i].path)
  {
    if chains != [] {
      var body' := Sanitize(chains[0], body);
      var first := ChainErrors(chains[0], body);
      var rest := RunChains(chains[1..], body').errors;
      ErrorsNameCheckedFields(chains[1..], body');
      var errs := RunChains(chains, body).errors;
      assert errs == first + rest;
      forall i | 0 <= i < |errs|
        ensures ChecksField(chains, errs[i].path)
      {
        if i < |first| {
          assert errs[i].path == chains[0].field;
        } else {
          assert errs[i] == rest[i - |first|];
          assert ChecksField(chains[1..], errs[i].path);
          var k :| 0 <= k < |chains[1..]| && chains[1..][k].field == errs[i].path;
          assert chains[k + 1].field == errs[i].path;
        }
      }
    }
  }

  /** No two errors name the same field. */
  predicate OnePerField(errs: seq<FieldError>)
  {
    forall i, j :: 0 <= i < j < |errs| ==> errs[i].path != errs[j].path
  }

  /** With `.bail()` after every check, each chain records at most one error: in a table of distinct fields, no field has two. */
  lemma {:induction false} OneErrorPerChain(chains: seq<Chain>, body: map<string, Json>)
    requires DistinctFields(chains)
    ensures OnePerField(RunChains(chains, body).errors)
  {
    if chains != [] {
      var body' := Sanitize(chains[0], body);
      var first := ChainErrors(chains[0], body);
      var rest := RunChains(chains[1..], body').errors;
      assert DistinctFields(chains[1..]) by {
        forall i, j | 0 <= i < j < |chains[1..]|
          ensures chains[1..][i].field != chains[1..][j].field
        {
          assert chains[1..][i] == chains[i + 1] && chains[1..][j] == chains[j + 1];
        }
      }
      OneErrorPerChain(chains[1..], body');
      ErrorsNameCheckedFields(chains[1..], body');
      forall j | 0 <= j < |rest|
        ensures rest[j].path != chains[0].field
      {
        var k :| 0 <= k < |chains[1..]| && chains[1..][k].field == rest[j].path;
        assert chains[k + 1].field == rest[j].path;
      }
      PrependOtherField(first, rest, chains[0].field);
    }
  }

  /** At most one error on a field in front of errors, one per field, on other fields keeps one error per field. */
  lemma PrependOtherField(first: seq<FieldError>, rest: seq<FieldError>, f: string)
    requires |first| <= 1 && forall i :: 0 <= i < |first| ==> first[i].path == f
    requires forall j :: 0 <= j < |rest| ==> rest[j].path != f
    requires OnePerField(rest)
    ensures OnePerField(first + rest)
  {
    var errs := first + rest;
    forall i, j | 0 <= i < j < |errs|
      ensures errs[i].path != errs[j].path
    {
      if i < |first| {
        assert errs[i] == first[i] && errs[j] == rest[j - |first|];
      } else {
        assert errs[i] == rest[i - |first|] && errs[j] == rest[j - |first|];
      }
    }
  }

  /** The errors are in strictly increasing field order. */
  predicate RankIncreasing(errs: seq<FieldError>)
  {
    forall i, j :: 0 <= i < j < |errs| ==> FieldRank(errs[i].path) < FieldRank(errs[j].path)
  }

  /** At most one error of a lower rank in front of increasing errors of higher ranks keeps the order. */
  lemma PrependLowerRank(first: seq<FieldError>, rest: seq<FieldError>, rank: nat)
    requires |first| <= 1 && forall i :: 0 <= i < |first| ==> FieldRank(first[i].path) == rank
    requires forall i :: 0 <= i < |rest| ==> FieldRank(rest[i].path) > rank
    requires RankIncreasing(rest)
    ensures RankIncreasing(first + rest)
  {
    var errs := first + rest;
    forall i, j | 0 <= i < j < |errs|
      ensures FieldRank(errs[i].path) < FieldRank(errs[j].path)
    {
      if i < |first| {
        assert errs[i] == first[i] && errs[j] == rest[j - |first|];
      } else {
        assert errs[i] == rest[i - |first|] && errs[j] == rest[j - |first|];
      }
    }
  }

  /** The errors come in the chains' order, so with the chains in field order no field has two. */
  lemma {:induction false} ErrorsInChainOrder(chains: seq<Chain>, body: map<string, Json>)
    requires RankOrdered(chains)
    ensures RankIncreasing(RunChains(chains, body).errors)
  {
    if chains != [] {
      var body' := Sanitize(chains[0], body);
      var first := ChainErrors(chains[0], body);
      var rest := RunChains(chains[1..], body').errors;
      assert RankOrdered(chains[1..]) by {
        forall i, j | 0 <= i < j < |chains[1..]|
          ensures FieldRank(chains[1..][i].field) < FieldRank(chains[1..][j].field)
        {
          assert chains[1..][i] == chains[i + 1] && chains[1..][j] == chains[j + 1];
        }
      }
      ErrorsInChainOrder(chains[1..], body');
      ErrorsNameCheckedFields(chains[1..], body');
      forall i | 0 <= i < |rest| ensures FieldRank(rest[i].path) > FieldRank(chains[0].field) {
        assert ChecksField(chains[1..], rest[i].path);
        var k :| 0 <= k < |chains[1..]| && chains[1..][k].field == rest[i].path;
        assert chains[1..][k] == chains[k + 1];
      }
      PrependLowerRank(first, rest, FieldRank(chains[0].field));
      assert RunChains(chains, body).errors == first + rest;
    }
  }

  /** The first error recorded for a field, if any. */
  function ErrorFor(errs: seq<FieldError>, f: string): (r: Option<FieldError>)
    ensures r.Some? ==> r.value in errs && r.value.path == f
    ensures r.None? <==> forall i :: 0 <= i < |errs| ==> errs[i].path != f
  {
    if errs == [] then None
    else if errs[0].path == f then Some(errs[0])
    else ErrorFor(errs[1..], f)
  }

  /** A chain's error, if it has one, as `ErrorFor` would find it. */
  function ChainError(c: Chain, body: map<string, Json>): Option<FieldError>
  {
    match FirstFailure(c.checks, Lookup(body, c.field))
    case Some(msg) => Some(FieldError(c.field, msg, Lookup(body, c.field)))
    case None => None
  }

  /**
   * With one chain per field, the error reported for a chain's field is that
   * chain's own first failure, and the field's value in the returned body is
   * the sanitized value exactly when the chain passed.
   */
  lemma {:induction false} FieldOutcome(chains: seq<Chain>, body: map<string, Json>, k: nat)
    requires DistinctFields(chains)
    requires k < |chains|
    ensures ErrorFor(RunChains(chains, body).errors, chains[k].field) == ChainError(chains[k], body)
    ensures chains[k].field in body ==>
      RunChains(chains, body).body[chains[k].field] ==
        if chains[k].coerce.Some? && Passes(chains[k], body)
        then chains[k].coerce.value(body[chains[k].field])
        else body[chains[k].field]
  {
    var f := chains[k].field;
    var body' := Sanitize(chains[0], body);
    var first := ChainErrors(chains[0], body);
    var later := RunChains(chains[1..], body');
    assert RunChains(chains, body).errors == first + later.errors;
    assert DistinctFields(chains[1..]) by {
      forall i, j | 0 <= i < j < |chains[1..]| ensures chains[1..][i].field != chains[1..][j].field {
        assert chains[1..][i] == chains[i + 1] && chains[1..][j] == chains[j + 1];
      }
    }
    if k == 0 {
      assert forall i :: 0 <= i < |chains[1..]| ==> chains[1..][i].field != f by {
        forall i | 0 <= i < |chains[1..]| ensures chains[1..][i].field != f {
          assert chains[1..][i] == chains[i + 1];
        }
      }
      ErrorsAbsentOutside(chains[1..], body', f);
      if first == [] {
        assert first + later.errors == later.errors;
      }
    } else {
      assert chains[1..][k - 1] == chains[k];
      FieldOutcome(chains[1..], body', k - 1);
      assert Lookup(body', f) == Lookup(body, f);
      assert ChainError(chains[k], body') == ChainError(chains[k], body);
      ErrorForSkips(first, later.errors, f);
    }
  }

  /** A field no chain checks gets no error. */
  lemma {:induction false} ErrorsAbsentOutside(chains: seq<Chain>, body: map<string, Json>, f: string)
    requires forall i :: 0 <= i < |chains| ==> chains[i].field != f
    ensures ErrorFor(RunChains(chains, body).errors, f) == None
  {
    if chains != [] {
      var body' := Sanitize(chains[0], body);
      assert forall i :: 0 <= i < |chains[1..]| ==> chains[1..][i].field != f by {
        forall i | 0 <= i < |chains[1..]| ensures chains[1..][i].field != f {
          assert chains[1..][i] == chains[i + 1];
        }
      }
      ErrorsAbsentOutside(chains[1..], body', f);
      ErrorForSkips(ChainErrors(chains[0], body), RunChains(chains[1..], body').errors, f);
    }
  }

  /** Errors for other fields in front do not change which error a field gets. */
  lemma {:induction false} ErrorForSkips(front: seq<FieldError>, back: seq<FieldError>, f: string)
    requires forall i :: 0 <= i < |front| ==> front[i].path != f
    ensures ErrorFor(front + back, f) == ErrorFor(back, f)
  {
    if front == [] {
      assert front + back == back;
    } else {
      assert (front + back)[0] == front[0];
      assert (front + back)[1..] == front[1..] + back;
      ErrorForSkips(front[1..], back, f);
    }
  }

  // ----- what the create validator promises, field by field -----

  /** The table lists one chain per field, in the order date, measurement, realReading, location. */
  lemma TableShape(lib: Recognisers)
    ensures RankOrdered(AddRainlogValidation(lib))
    ensures DistinctFields(AddRainlogValidation(lib))
  {
  }

  /**
   * The errors come in the order date, measurement, realReading, location,
   * each field has at most one, and no other body field (`loggedBy`,
   * `timestamp`, `records`, ...) ever gets one.
   */
  lemma ValidateErrorOrder(lib: Recognisers, body: map<string, Json>)
    ensures forall i :: 0 <= i < |Validate(lib, body).errors| ==> Validate(lib, body).errors[i].path in Fields
    ensures forall i, j :: 0 <= i < j < |Validate(lib, body).errors| ==>
      FieldRank(Validate(lib, body).errors[i].path) < FieldRank(Validate(lib, body).errors[j].path)
  {
    var chains := AddRainlogValidation(lib);
    TableShape(lib);
    ErrorsNameCheckedFields(chains, body);
    ErrorsInChainOrder(chains, body);
    var errs := Validate(lib, body).errors;
    forall i | 0 <= i < |errs| ensures errs[i].path in Fields {
      assert ChecksField(chains, errs[i].path);
    }
  }

  /** A body field outside the four never gets an error. */
  lemma OtherFieldsNeverFail(lib: Recognisers, body: map<string, Json>, f: string)
    requires f !in Fields
    ensures ErrorFor(Validate(lib, body).errors, f) == None
  {
    ErrorsAbsentOutside(AddRainlogValidation(lib), body, f);
  }

  /**
   * Date: missing gives "Date is required" (the format check is never
   * reached); present but not ISO 8601 gives "Date must be a valid date" and the value
   * stays as sent; otherwise no error and the value becomes a date.
   */
  lemma DateRules(lib: Recognisers, body: map<string, Json>)
    ensures "date" !in body ==>
      ErrorFor(Validate(lib, body).errors, "date") == Some(FieldError("date", DateRequired, None))
    ensures "date" in body && !lib.isISO8601(body["date"]) ==>
      ErrorFor(Validate(lib, body).errors, "date") == Some(FieldError("date", DateFormat, Some(body["date"]))) &&
      Validate(lib, body).body["date"] == body["date"]
    ensures "date" in body && lib.isISO8601(body["date"]) ==>
      ErrorFor(Validate(lib, body).errors, "date") == None &&
      Validate(lib, body).body["date"] == DateValue(lib.toDate(body["date"]))
  {
    var chains := AddRainlogValidation(lib);
    TableShape(lib);
    FieldOutcome(chains, body, 0);
    assert chains[0] == DateChain(lib);
    DateChainVerdict(lib, Lookup(body, Fields[0]));
  }

  /**
   * Measurement: missing gives "Measurement is required"; a value that is not
   * a number at least 0 gives "Measurement must be a positive number" (so 0 is
   * accepted); otherwise no error and the value becomes that number.
   */
  lemma MeasurementRules(lib: Recognisers, body: map<string, Json>)
    ensures "measurement" !in body ==>
      ErrorFor(Validate(lib, body).errors, "measurement") == Some(FieldError("measurement", MeasurementRequired, None))
    ensures "measurement" in body && !(lib.isFloat(body["measurement"]) && lib.floatValue(body["measurement"]) >= 0.0) ==>
      ErrorFor(Validate(lib, body).errors, "measurement") ==
        Some(FieldError("measurement", MeasurementPositive, Some(body["measurement"]))) &&
      Validate(lib, body).body["measurement"] == body["measurement"]
    ensures "measurement" in body && lib.isFloat(body["measurement"]) && lib.floatValue(body["measurement"]) >= 0.0 ==>
      ErrorFor(Validate(lib, body).errors, "measurement") == None &&
      Validate(lib, body).body["measurement"] == JNum(lib.floatValue(body["measurement"]))
  {
    var chains := AddRainlogValidation(lib);
    TableShape(lib);
    FieldOutcome(chains, body, 1);
    assert chains[1] == MeasurementChain(lib);
    MeasurementChainVerdict(lib, Lookup(body, Fields[1]));
  }

  /**
   * realReading: missing gives "realReading is required"; a value the library
   * does not read as a boolean gives "realReading must be a boolean"; otherwise
   * no error and the value becomes that boolean.
   */
  lemma RealReadingRules(lib: Recognisers, body: map<string, Json>)
    ensures "realReading" !in body ==>
      ErrorFor(Validate(lib, body).errors, "realReading") == Some(FieldError("realReading", RealReadingRequired, None))
    ensures "realReading" in body && !lib.isBoolean(body["realReading"]) ==>
      ErrorFor(Validate(lib, body).errors, "realReading") ==
        Some(FieldError("realReading", RealReadingBoolean, Some(body["realReading"]))) &&
      Validate(lib, body).body["realReading"] == body["realReading"]
    ensures "realReading" in body && lib.isBoolean(body["realReading"]) ==>
      ErrorFor(Validate(lib, body).errors, "realReading") == None &&
      Validate(lib, body).body["realReading"] == JBool(lib.booleanValue(body["realReading"]))
  {
    var chains := AddRainlogValidation(lib);
    TableShape(lib);
    FieldOutcome(chains, body, 2);
    assert chains[2] == RealReadingChain(lib);
    RealReadingChainVerdict(lib, Lookup(body, Fields[2]));
  }

  /**
   * Location: missing gives "Location is required", a non-string "Location
   * must be a string", the empty string "Location cannot be empty"; a
   * non-empty string passes and is kept as it is.
   */
  lemma LocationRules(lib: Recognisers, body: map<string, Json>)
    ensures "location" !in body ==>
      ErrorFor(Validate(lib, body).errors, "location") == Some(FieldError("location", LocationRequired, None))
    ensures "location" in body && !body["location"].JStr? ==>
      ErrorFor(Validate(lib, body).errors, "location") == Some(FieldError("location", LocationString, Some(body["location"])))
    ensures "location" in body && body["location"] == JStr("") ==>
      ErrorFor(Validate(lib, body).errors, "location") == Some(FieldError("location", LocationEmpty, Some(body["location"])))
    ensures "location" in body && body["location"].JStr? && body["location"].s != "" ==>
      ErrorFor(Validate(lib, body).errors, "location") == None
    ensures "location" in body ==> Validate(lib, body).body["location"] == body["location"]
  {
    var chains := AddRainlogValidation(lib);
    TableShape(lib);
    FieldOutcome(chains, body, 3);
    assert chains[3] == LocationChain();
    LocationChainVerdict(Lookup(body, Fields[3]));
  }

  /** A body that satisfies every rule of the create request, stated field by field. */
  predicate WellFormed(lib: Recognisers, body: map<string, Json>)
  {
    && "date" in body && lib.isISO8601(body["date"])
    && "measurement" in body && lib.isFloat(body["measurement"]) && lib.floatValue(body["measurement"]) >= 0.0
    && "realReading" in body && lib.isBoolean(body["realReading"])
    && "location" in body && body["location"].JStr? && body["location"].s != ""
  }

  /**
   * The validator reports no error exactly for well-formed bodies, and then
   * the body holds the coerced date, a number at least 0 and a boolean, with
   * the location unchanged.
   */
  lemma ValidateAcceptsExactlyWellFormed(lib: Recognisers, body: map<string, Json>)
    ensures Validate(lib, body).errors == [] <==> WellFormed(lib, body)
    ensures WellFormed(lib, body) ==>
      var out := Validate(lib, body).body;
      && out["date"] == DateValue(lib.toDate(body["date"]))
      && out["measurement"].JNum? && out["measurement"].n >= 0.0
      && out["realReading"] == JBool(lib.booleanValue(body["realReading"]))
      && out["location"] == body["location"]
  {
    NoErrorsIffFieldsClean(lib, body);
    DateRules(lib, body);
    MeasurementRules(lib, body);
    RealReadingRules(lib, body);
    LocationRules(lib, body);
  }

  /** The validator reports no error exactly when none of the four fields has one. */
  lemma NoErrorsIffFieldsClean(lib: Recognisers, body: map<string, Json>)
    ensures Validate(lib, body).errors == [] <==>
      && ErrorFor(Validate(lib, body).errors, "date").None?
      && ErrorFor(Validate(lib, body).errors, "measurement").None?
      && ErrorFor(Validate(lib, body).errors, "realReading").None?
      && ErrorFor(Validate(lib, body).errors, "location").None?
  {
    ValidateErrorOrder(lib, body);
    CleanFieldsNoErrors(Validate(lib, body).errors);
  }

  /** A list of errors that starts with one on the four fields is empty exactly when none of the four has an error in it. */
  lemma CleanFieldsNoErrors(errs: seq<FieldError>)
    requires errs != [] ==> errs[0].path in Fields
    ensures errs == [] <==>
      && ErrorFor(errs, "date").None? && ErrorFor(errs, "measurement").None?
      && ErrorFor(errs, "realReading").None? && ErrorFor(errs, "location").None?
  {
    if errs == [] {
    } else {
      var p := errs[0].path;
      assert ErrorFor(errs, p) == Some(errs[0]);
      if p == "date" {
      } else if p == "measurement" {
      } else if p == "realReading" {
      } else {
        assert p == "location";
      }
    }
  }

  /** What the date chain reports for a value. */
  lemma DateChainVerdict(lib: Recognisers, v: Option<Json>)
    ensures FirstFailure(DateChain(lib).checks, v) ==
      if v.None? then Some(DateRequired) else if !lib.isISO8601(v.value) then Some(DateFormat) else None
  {
    var checks := DateChain(lib).checks;
    assert checks[1..][1..] == [];
  }

  /** What the measurement chain reports for a value. */
  lemma MeasurementChainVerdict(lib: Recognisers, v: Option<Json>)
    ensures FirstFailure(MeasurementChain(lib).checks, v) ==
      if v.None? then Some(MeasurementRequired)
      else if !(lib.isFloat(v.value) && lib.floatValue(v.value) >= 0.0) then Some(MeasurementPositive)
      else None
  {
    var checks := MeasurementChain(lib).checks;
    assert checks[1..][1..] == [];
  }

  /** What the realReading chain reports for a value. */
  lemma RealReadingChainVerdict(lib: Recognisers, v: Option<Json>)
    ensures FirstFailure(RealReadingChain(lib).checks, v) ==
      if v.None? then Some(RealReadingRequired) else if !lib.isBoolean(v.value) then Some(RealReadingBoolean) else None
  {
    var checks := RealReadingChain(lib).checks;
    assert checks[1..][1..] == [];
  }

  /** What the location chain reports for a value. */
  lemma LocationChainVerdict(v: Option<Json>)
    ensures FirstFailure(LocationChain().checks, v) ==
      if v.None? then Some(LocationRequired)
      else if !v.value.JStr? then Some(LocationString)
      else if v.value.s == "" then Some(LocationEmpty)
      else None
  {
    var checks := LocationChain().checks;
    var c1, c2 := checks[1], checks[2];
    assert c1.accepts(v) == (v.Some? && v.value.JStr?);
    assert c2.accepts(v) == (v.Some? && v.value.JStr? && |v.value.s| >= 1);
    assert checks[1..] == [c1, c2] && [c1, c2][1..] == [c2] && [c2][1..] == [];
    assert FirstFailure([c2], v) == if c2.accepts(v) then None else Some(LocationEmpty);
    assert FirstFailure([c1, c2], v) == if c1.accepts(v) then FirstFailure([c2], v) else Some(LocationString);
  }
}
