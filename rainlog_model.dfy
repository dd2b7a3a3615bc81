/**
 * The rainfall-record store of src/models/rainlogModel.ts: the collection the
 * `Rainlog` model writes to. A create fills in the schema defaults, rejects a
 * document whose required fields are missing, and is refused by the unique
 * `(date, location)` index (and the unique `_id` index every collection has)
 * when a stored record already holds the same key.
 */
module RainlogModel {
  import opened Wrappers
  import opened RainlogTypes
  import opened Http

  const DateMissing := "A date must be provided"
  const MeasurementMissing := "A measurement must be provided"
  const RealReadingMissing := "Specify if this is a real reading or an estimated one"
  const LocationMissing := "A location must be provided"
  const TimestampMissing := "A timestamp must be provided"
  const LoggedByMissing := "A user must be provided"

  /** A field of the object passed to `create`: not set, `null`, a value of the field's type, or a value that type cannot hold. */
  datatype Field<T> = Undefined | Null | Given(value: T) | Uncastable

  /** The object passed to `create`, field by field; `records` is absent or a list of strings. */
  datatype Candidate = Candidate(
    date: Field<Date>,
    records: Option<seq<string>>,
    measurement: Field<real>,
    realReading: Field<bool>,
    location: Field<string>,
    timestamp: Field<Date>,
    loggedBy: Field<string>)

  /** Two records with the same `(date, location)`: what the unique index forbids. */
  predicate SameKey(a: Rainlog, b: Rainlog)
  {
    a.date == b.date && a.location == b.location
  }

  /** The collection invariant: no two records share an `_id` or a `(date, location)` pair. */
  predicate Unique(docs: seq<Rainlog>)
  {
    forall i, j :: 0 <= i < j < |docs| ==> docs[i].id != docs[j].id && !SameKey(docs[i], docs[j])
  }

  /** A stored record that the new record `d` would collide with on one of the unique indexes. */
  predicate Clashes(docs: seq<Rainlog>, d: Rainlog)
  {
    exists i :: 0 <= i < |docs| && (docs[i].id == d.id || SameKey(docs[i], d))
  }

  /** The schema defaults, applied to the fields left undefined: `records` = [], `realReading` = true, `timestamp` = now. */
  function WithDefaults(c: Candidate, now: Date): (full: Candidate)
    ensures !full.realReading.Undefined? && !full.timestamp.Undefined? && full.records.Some?
    ensures full.date == c.date && full.measurement == c.measurement
    ensures full.location == c.location && full.loggedBy == c.loggedBy
  {
    c.(records := if c.records.None? then Some([]) else c.records,
       realReading := if c.realReading.Undefined? then Given(true) else c.realReading,
       timestamp := if c.timestamp.Undefined? then Given(now) else c.timestamp)
  }

  /** The error of a required field that is not a string: set to a value, or not. */
  function PathCheck<T>(f: Field<T>, path: string, message: string): (e: seq<PathError>)
    ensures e == [] <==> f.Given?
    ensures f.Undefined? || f.Null? ==> e == [Required(path, message)]
  {
    match f
    case Given(_) => []
    case Uncastable => [CastFailed(path)]
    case _ => [Required(path, message)]
  }

  /** The error of a required string field: the empty string counts as no value. */
  function StringPathCheck(f: Field<string>, path: string, message: string): (e: seq<PathError>)
    ensures e == [] <==> f.Given? && f.value != ""
    ensures f.Undefined? || f.Null? || f == Given("") ==> e == [Required(path, message)]
  {
    match f
    case Given(s) => if s == "" then [Required(path, message)] else []
    case Uncastable => [CastFailed(path)]
    case _ => [Required(path, message)]
  }

  /** Document validation: one error per failing field, in the order of the schema. */
  function SchemaErrors(c: Candidate): seq<PathError>
  {
    PathCheck(c.date, "date", DateMissing)
    + PathCheck(c.measurement, "measurement", MeasurementMissing)
    + PathCheck(c.realReading, "realReading", RealReadingMissing)
    + StringPathCheck(c.location, "location", LocationMissing)
    + PathCheck(c.timestamp, "timestamp", TimestampMissing)
    + StringPathCheck(c.loggedBy, "loggedBy", LoggedByMissing)
  }

  /** Every required field holds a value (a non-empty one for the strings). */
  predicate Filled(c: Candidate)
  {
    && c.date.Given? && c.measurement.Given? && c.realReading.Given?
    && c.location.Given? && c.location.value != ""
    && c.timestamp.Given?
    && c.loggedBy.Given? && c.loggedBy.value != ""
  }

  /** The record a filled candidate becomes, under the identifier the driver generated. */
  function Document(c: Candidate, id: ObjectId): Rainlog
    requires Filled(c) && c.records.Some?
  {
    Rainlog(id, c.date.value, c.records.value, c.measurement.value, c.realReading.value,
            c.location.value, c.timestamp.value, c.loggedBy.value)
  }

  /**
   * `RainlogModel.create(c)` against the stored records `docs`, at time `now`,
   * with `id` the generated `_id`: defaults, then validation, then the indexes.
   */
  function Insert(docs: seq<Rainlog>, c: Candidate, now: Date, id: ObjectId): (r: Result<Rainlog, Failure>)
    ensures r.Ok? ==> r.value.id == id && !Clashes(docs, r.value)
    ensures r.Err? ==> r.error == DuplicateKey || (r.error.DocumentInvalid? && r.error.errors != [])
  {
    var full := WithDefaults(c, now);
    var errors := SchemaErrors(full);
    if errors != [] then Err(DocumentInvalid(errors))
    else
      assert Filled(full);
      var d := Document(full, id);
      if Clashes(docs, d) then Err(DuplicateKey) else Ok(d)
  }

  /** The first record of `docs` with identifier `id`. */
  function Find(docs: seq<Rainlog>, id: ObjectId): (r: Option<Rainlog>)
    ensures r.Some? ==> r.value in docs && r.value.id == id
    ensures r.None? <==> forall i :: 0 <= i < |docs| ==> docs[i].id != id
  {
    if docs == [] then None
    else if docs[0].id == id then Some(docs[0])
    else
      var r := Find(docs[1..], id);
      assert forall i :: 1 <= i < |docs| ==> docs[i] == docs[1..][i - 1];
      r
  }

  /** The rainfall-record collection. */
  class RainlogStore {
    var docs: seq<Rainlog>

    /** The unique indexes hold. */
    ghost predicate Valid()
      reads this
    {
      Unique(docs)
    }

    /** An empty collection. */
    constructor ()
      ensures docs == [] && Valid()
    {
      docs := [];
    }

    /**
     * `RainlogModel.create`: on success exactly one record is appended and the
     * stored ones are untouched; on any rejection nothing changes.
     */
    method Create(c: Candidate, now: Date, id: ObjectId) returns (r: Result<Rainlog, Failure>)
      requires Valid()
      modifies this
      ensures Valid()
      ensures r == Insert(old(docs), c, now, id)
      ensures r.Ok? ==> docs == old(docs) + [r.value]
      ensures r.Err? ==> docs == old(docs)
    {
      var full := WithDefaults(c, now);
      var errors := SchemaErrors(full);
      if errors != [] {
        return Err(DocumentInvalid(errors));
      }
      assert Filled(full);
      var d := Document(full, id);
      if Clashes(docs, d) {
        return Err(DuplicateKey);
      }
      AppendKeepsUnique(docs, d);
      docs := docs + [d];
      r := Ok(d);
    }

    /** `RainlogModel.findById(id)`: the stored record with that identifier, or none. */
    function FindById(id: ObjectId): (r: Option<Rainlog>)
      reads this
      ensures r.Some? ==> r.value in docs && r.value.id == id
      ensures r.None? <==> forall i :: 0 <= i < |docs| ==> docs[i].id != id
    {
      Find(docs, id)
    }
  }

  // ----- properties of the store -----

  /** A record that clashes with nothing can be appended without breaking the unique indexes. */
  lemma AppendKeepsUnique(docs: seq<Rainlog>, d: Rainlog)
    requires Unique(docs) && !Clashes(docs, d)
    ensures Unique(docs + [d])
  {
    var after := docs + [d];
    forall i, j | 0 <= i < j < |after|
      ensures after[i].id != after[j].id && !SameKey(after[i], after[j])
    {
      if j == |docs| {
        assert after[i] == docs[i] && after[j] == d;
      } else {
        assert after[i] == docs[i] && after[j] == docs[j];
      }
    }
  }

  /** A successful insert keeps the collection's invariant. */
  lemma InsertKeepsUnique(docs: seq<Rainlog>, c: Candidate, now: Date, id: ObjectId)
    requires Unique(docs) && Insert(docs, c, now, id).Ok?
    ensures Unique(docs + [Insert(docs, c, now, id).value])
  {
    AppendKeepsUnique(docs, Insert(docs, c, now, id).value);
  }

  /**
   * The record stored copies the given fields, under the generated `_id`, and
   * takes the schema defaults for what was left undefined.
   */
  lemma InsertedRecord(docs: seq<Rainlog>, c: Candidate, now: Date, id: ObjectId)
    requires Insert(docs, c, now, id).Ok?
    ensures var d := Insert(docs, c, now, id).value;
      && d.id == id
      && c.date == Given(d.date) && c.measurement == Given(d.measurement)
      && c.location == Given(d.location) && c.loggedBy == Given(d.loggedBy)
      && (c.realReading == Given(d.realReading) || (c.realReading.Undefined? && d.realReading))
      && (c.timestamp == Given(d.timestamp) || (c.timestamp.Undefined? && d.timestamp == now))
      && (c.records == Some(d.records) || (c.records.None? && d.records == []))
  {
  }

  /** Exactly the candidates whose required fields are filled (after the defaults) and that clash with nothing are stored. */
  lemma InsertAcceptsExactly(docs: seq<Rainlog>, c: Candidate, now: Date, id: ObjectId)
    ensures Insert(docs, c, now, id).Ok? <==>
      Filled(WithDefaults(c, now)) && !Clashes(docs, Document(WithDefaults(c, now), id))
  {
  }

  /** A filled candidate whose `(date, location)` is already stored is refused with a duplicate-key error. */
  lemma DuplicateRefused(docs: seq<Rainlog>, c: Candidate, now: Date, id: ObjectId, i: nat)
    requires Filled(WithDefaults(c, now))
    requires i < |docs| && docs[i].date == c.date.value && docs[i].location == c.location.value
    ensures Insert(docs, c, now, id) == Err(DuplicateKey)
  {
    assert SameKey(docs[i], Document(WithDefaults(c, now), id));
  }

  /** The candidate is refused at validation, and `e` is among the reasons. */
  predicate RefusedWith(docs: seq<Rainlog>, c: Candidate, now: Date, id: ObjectId, e: PathError)
  {
    Insert(docs, c, now, id).Err? && Insert(docs, c, now, id).error.DocumentInvalid? &&
    e in Insert(docs, c, now, id).error.errors
  }

  /**
   * Each required field without a value is reported with its own message:
   * `realReading` and `timestamp` only when set to `null`, since the defaults
   * fill them when undefined, and the strings also when empty.
   */
  lemma RequiredFields(docs: seq<Rainlog>, c: Candidate, now: Date, id: ObjectId)
    ensures c.date.Undefined? || c.date.Null? ==> RefusedWith(docs, c, now, id, Required("date", DateMissing))
    ensures c.measurement.Undefined? || c.measurement.Null? ==>
      RefusedWith(docs, c, now, id, Required("measurement", MeasurementMissing))
    ensures c.realReading.Null? ==> RefusedWith(docs, c, now, id, Required("realReading", RealReadingMissing))
    ensures c.location.Undefined? || c.location.Null? || c.location == Given("") ==>
      RefusedWith(docs, c, now, id, Required("location", LocationMissing))
    ensures c.timestamp.Null? ==> RefusedWith(docs, c, now, id, Required("timestamp", TimestampMissing))
    ensures c.loggedBy.Undefined? || c.loggedBy.Null? || c.loggedBy == Given("") ==>
      RefusedWith(docs, c, now, id, Required("loggedBy", LoggedByMissing))
  {
  }

  /** An undefined `realReading` or `timestamp` is never a reason for refusal: the defaults supply them. */
  lemma DefaultsNeverRefused(docs: seq<Rainlog>, c: Candidate, now: Date, id: ObjectId)
    requires c.realReading.Undefined? && c.timestamp.Undefined?
    ensures !RefusedWith(docs, c, now, id, Required("realReading", RealReadingMissing))
    ensures !RefusedWith(docs, c, now, id, Required("timestamp", TimestampMissing))
  {
  }

  /** After a successful insert the new record is found by its identifier, and every other lookup is as before. */
  lemma {:induction false} FindAfterInsert(docs: seq<Rainlog>, d: Rainlog, other: ObjectId)
    requires !Clashes(docs, d)
    ensures Find(docs + [d], d.id) == Some(d)
    ensures other != d.id ==> Find(docs + [d], other) == Find(docs, other)
  {
    if docs != [] {
      assert (docs + [d])[1..] == docs[1..] + [d];
      forall i | 0 <= i < |docs[1..]|
        ensures docs[1..][i].id != d.id && !SameKey(docs[1..][i], d)
      {
        assert docs[1..][i] == docs[i + 1];
      }
      assert docs[0].id != d.id;
      FindAfterInsert(docs[1..], d, other);
    }
  }
}
