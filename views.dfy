/** The two write endpoints of backend/professionals/views.py: the bulk upsert
    (`ProfessionalBulkUpsertView.post`) and the single create of `ProfessionalListCreateView`.
    `isEmail` stands for Django's email syntax check throughout. */
module Views {
  import opened Common
  import opened Models
  import opened Serializers
  import opened Store

  // ---------------------------------------------------------------------------------------
  // Step 2 and 3 of an item: the lookup key and the existing row.

  /** The identity a validated item is matched by. */
  datatype LookupKey = ByEmail(email: string) | ByPhone(phone: string) | Missing

  /** `if email:` in Python: the validated data has an email that is neither NULL nor `''`. */
  predicate HasEmail(v: ValidatedItem) {
    v.email.Given? && v.email.value.Some? && v.email.value.value != []
  }

  /** Email when the item has one, otherwise phone when it is non-empty, otherwise nothing. */
  function KeyOf(v: ValidatedItem): (k: LookupKey)
    ensures k.ByEmail? <==> HasEmail(v)
    ensures k.ByEmail? ==> v.email == Given(Some(k.email)) && k.email != []
    ensures k.ByPhone? ==> !HasEmail(v) && k.phone == v.phone && v.phone != []
    ensures k.Missing? <==> !HasEmail(v) && v.phone == []
  {
    if HasEmail(v) then ByEmail(v.email.value.value)
    else if v.phone != [] then ByPhone(v.phone)
    else Missing
  }

  predicate Matches(row: Professional, k: LookupKey) {
    match k
    case ByEmail(e) => Has(row, EmailColumn, e)
    case ByPhone(p) => Has(row, PhoneColumn, p)
    case Missing => false
  }

  /** Step 3: `filter(email=email).first()` when the key is an email, `filter(phone=phone).first()`
      when it is a phone; an email that matches nothing is not retried by phone. */
  function Lookup(rows: seq<Professional>, k: LookupKey): (r: Option<nat>)
    ensures r.Some? ==> r.value < |rows| && Matches(rows[r.value], k)
    ensures r.None? <==> forall i :: 0 <= i < |rows| ==> !Matches(rows[i], k)
    ensures r.Some? && UniqueKeys(rows) ==>
      forall i :: 0 <= i < |rows| && Matches(rows[i], k) ==> i == r.value
  {
    var r := match k
      case ByEmail(e) => FirstWhere(rows, EmailColumn, e)
      case ByPhone(p) => FirstWhere(rows, PhoneColumn, p)
      case Missing => None;
    assert r.Some? && UniqueKeys(rows) ==>
      forall i :: 0 <= i < |rows| && Matches(rows[i], k) ==> i == r.value by {
      if r.Some? && UniqueKeys(rows) {
        forall i | 0 <= i < |rows| && Matches(rows[i], k) ensures i == r.value {
          AtMostOneHolder(rows, if k.ByEmail? then EmailColumn else PhoneColumn,
                          if k.ByEmail? then k.email else k.phone, i, r.value);
        }
      }
    }
    r
  }

  // ---------------------------------------------------------------------------------------
  // Step 4: writing the validated data.

  /** One column's value, whatever its type. */
  datatype ColumnValue = Text(text: string) | NullableText(opt: Option<string>) | Choice(choice: Source)

  function ColumnOf(p: Profile, f: Field): ColumnValue {
    match f
    case FullName => Text(p.fullName)
    case Email => NullableText(p.email)
    case Phone => Text(p.phone)
    case CompanyName => Text(p.companyName)
    case JobTitle => Text(p.jobTitle)
    case SourceField => Choice(p.source)
  }

  /** The fields a validated item may leave out. */
  predicate Optional(f: Field) {
    f == Email || f == CompanyName || f == JobTitle
  }

  /** `validated_data` as a dictionary from field to value: the required fields always, the
      optional ones only where the item had them. */
  function ValidatedValues(v: ValidatedItem): (d: map<Field, ColumnValue>)
    ensures forall f :: !Optional(f) ==> f in d
    ensures Email in d <==> v.email.Given?
    ensures CompanyName in d <==> v.companyName.Given?
    ensures JobTitle in d <==> v.jobTitle.Given?
    ensures FullName in d && Phone in d && SourceField in d
    ensures d[FullName] == Text(v.fullName) && d[Phone] == Text(v.phone) && d[SourceField] == Choice(v.source)
    ensures v.email.Given? ==> d[Email] == NullableText(v.email.value)
    ensures v.companyName.Given? ==> d[CompanyName] == Text(v.companyName.value)
    ensures v.jobTitle.Given? ==> d[JobTitle] == Text(v.jobTitle.value)
  {
    var d := map[FullName := Text(v.fullName), Phone := Text(v.phone), SourceField := Choice(v.source)];
    var d := if v.email.Given? then d[Email := NullableText(v.email.value)] else d;
    var d := if v.companyName.Given? then d[CompanyName := Text(v.companyName.value)] else d;
    if v.jobTitle.Given? then d[JobTitle := Text(v.jobTitle.value)] else d
  }

  /** The value a column takes after a write of `v`: the validated value when `v` has the
      field, `otherwise` when it does not. */
  function Written(v: ValidatedItem, f: Field, otherwise: ColumnValue): ColumnValue {
    if f in ValidatedValues(v) then ValidatedValues(v)[f] else otherwise
  }

  /** The model defaults of the optional columns: NULL email, empty company and job title
      (the required columns have none; a validated item always carries them). */
  function ModelDefault(f: Field): ColumnValue {
    if f == Email then NullableText(None) else Text([])
  }

  /** The profile `p` after writing the fields of `v` over it. */
  function Overwrite(p: Profile, v: ValidatedItem): Profile {
    Profile(
      v.fullName,
      if v.email.Given? then v.email.value else p.email,
      v.phone,
      if v.companyName.Given? then v.companyName.value else p.companyName,
      if v.jobTitle.Given? then v.jobTitle.value else p.jobTitle,
      v.source)
  }

  lemma OverwriteColumns(p: Profile, v: ValidatedItem)
    ensures forall f :: ColumnOf(Overwrite(p, v), f) == Written(v, f, ColumnOf(p, f))
  {
    forall f ensures ColumnOf(Overwrite(p, v), f) == Written(v, f, ColumnOf(p, f)) {
      match f
      case FullName =>
      case Email =>
      case Phone =>
      case CompanyName =>
      case JobTitle =>
      case SourceField =>
    }
  }

  /** `for field, value in validated.items(): setattr(existing, field, value)`: every field
      in the validated data is overwritten, every other column keeps its value. */
  function ApplyFields(p: Profile, v: ValidatedItem): (r: Profile)
    ensures forall f :: ColumnOf(r, f) == Written(v, f, ColumnOf(p, f))
  {
    OverwriteColumns(p, v);
    Overwrite(p, v)
  }

  /** A new row's profile: the validated fields, the model defaults elsewhere. */
  function Fresh(v: ValidatedItem): Profile {
    Profile(
      v.fullName,
      if v.email.Given? then v.email.value else None,
      v.phone,
      if v.companyName.Given? then v.companyName.value else [],
      if v.jobTitle.Given? then v.jobTitle.value else [],
      v.source)
  }

  lemma FreshColumns(v: ValidatedItem)
    ensures forall f :: ColumnOf(Fresh(v), f) == Written(v, f, ModelDefault(f))
  {
    forall f ensures ColumnOf(Fresh(v), f) == Written(v, f, ModelDefault(f)) {
      match f
      case FullName =>
      case Email =>
      case Phone =>
      case CompanyName =>
      case JobTitle =>
      case SourceField =>
    }
  }

  /** `Professional.objects.create(**validated)`: the validated fields, model defaults for
      the optional columns the item left out. */
  function NewProfile(v: ValidatedItem): (r: Profile)
    ensures forall f :: ColumnOf(r, f) == Written(v, f, ModelDefault(f))
  {
    FreshColumns(v);
    Fresh(v)
  }

  // ---------------------------------------------------------------------------------------
  // One item and the whole batch, as values.

  /** What became of one item. */
  datatype Outcome = Created(row: Professional) | Updated(row: Professional) | Failed(errors: ErrorMap)

  /** `{'non_field_errors': ['Either email or phone is required.']}` */
  const IdentityMissingErrors: ErrorMap := map[NonFieldErrors := [IdentityMissing]]

  /** `{'non_field_errors': [str(e)]}` for an `IntegrityError` `e`. */
  const IntegrityErrors: ErrorMap := map[NonFieldErrors := [IntegrityError]]

  /** The body of the loop for one item against the table `db`: validate, pick the key, look
      the row up, then update it or insert a new one. A failed write leaves `db` as it was. */
  function ProcessItem(db: Db, item: RawItem, isEmail: string -> bool): (r: (Db, Outcome))
    ensures r.1.Failed? ==> r.0 == db
    ensures ValidateBulkItem(item, isEmail).Failure? ==>
      r == (db, Failed(ValidateBulkItem(item, isEmail).error))
    ensures ValidateBulkItem(item, isEmail).Success? ==>
      r == ProcessValidated(db, ValidateBulkItem(item, isEmail).value)
    ensures ValidDb(db) ==> ValidDb(r.0)
  {
    match ValidateBulkItem(item, isEmail)
    case Failure(e) => (db, Failed(e))
    case Success(v) => ProcessValidated(db, v)
  }

  /** Steps 2 to 4 for an item that passed validation. */
  function ProcessValidated(db: Db, v: ValidatedItem): (r: (Db, Outcome))
    ensures r.1.Failed? ==> r.0 == db
    ensures ValidDb(db) ==> ValidDb(r.0)
    ensures KeyOf(v).Missing? ==> r == (db, Failed(IdentityMissingErrors))
    ensures !KeyOf(v).Missing? && Lookup(db.rows, KeyOf(v)).None? ==>
      && (r.1.Created? <==> Fits(db.rows, NewProfile(v), None))
      && (!r.1.Created? ==> r == (db, Failed(IntegrityErrors)))
    ensures !KeyOf(v).Missing? && Lookup(db.rows, KeyOf(v)).Some? ==>
      var i := Lookup(db.rows, KeyOf(v)).value;
      && (r.1.Updated? <==> Fits(db.rows, ApplyFields(db.rows[i].profile, v), Some(i)))
      && (!r.1.Updated? ==> r == (db, Failed(IntegrityErrors)))
    ensures r.1.Created? ==>
      && Lookup(db.rows, KeyOf(v)).None?
      && r.0 == Db(db.rows + [r.1.row], db.nextId + 1, db.clock + 1)
      && r.1.row == Professional(db.nextId, NewProfile(v), db.clock)
    ensures r.1.Updated? ==>
      && Lookup(db.rows, KeyOf(v)).Some?
      && var i := Lookup(db.rows, KeyOf(v)).value;
      && |r.0.rows| == |db.rows| && r.0.rows[i] == r.1.row
      && r.1.row == Professional(db.rows[i].id, ApplyFields(db.rows[i].profile, v), db.rows[i].createdAt)
      && (forall j :: 0 <= j < |db.rows| && j != i ==> r.0.rows[j] == db.rows[j])
      && r.0 == db.(rows := db.rows[i := r.1.row])
  {
    var key := KeyOf(v);
    if key.Missing? then (db, Failed(IdentityMissingErrors))
    else
      match Lookup(db.rows, key)
      case Some(i) =>
        var (db', ok) := Update(db, i, ApplyFields(db.rows[i].profile, v));
        if ok then (db', Updated(db'.rows[i])) else (db, Failed(IntegrityErrors))
      case None =>
        var (db', row) := Insert(db, NewProfile(v));
        if row.Some? then (db', Created(row.value)) else (db, Failed(IntegrityErrors))
  }

  /** One entry of a response bucket: `{index, professional}` or `{index, data, errors}`. */
  datatype Entry =
    | Saved(index: nat, professional: Professional)
    | Error(index: nat, data: RawItem, errors: ErrorMap)

  /** The three lists the bulk view answers with. */
  datatype Buckets = Buckets(created: seq<Entry>, updated: seq<Entry>, errors: seq<Entry>)

  const NoEntries := Buckets([], [], [])

  /** Appends the outcome of the item at `index` to its bucket. */
  function Record(b: Buckets, index: nat, item: RawItem, o: Outcome): Buckets {
    match o
    case Created(row) => b.(created := b.created + [Saved(index, row)])
    case Updated(row) => b.(updated := b.updated + [Saved(index, row)])
    case Failed(e) => b.(errors := b.errors + [Error(index, item, e)])
  }

  /** The loop over `enumerate(request.data)`: the table and buckets after processing `items`
      in order, each item against the table its predecessors left. */
  function Run(db: Db, items: seq<RawItem>, isEmail: string -> bool): (r: (Db, Buckets))
    ensures ValidDb(db) ==> ValidDb(r.0)
    decreases |items|
  {
    if items == [] then (db, NoEntries)
    else
      var n := |items| - 1;
      var (before, b) := Run(db, items[..n], isEmail);
      var (after, o) := ProcessItem(before, items[n], isEmail);
      (after, Record(b, n, items[n], o))
  }

  // ---------------------------------------------------------------------------------------
  // The endpoints, over the mutable table.

  /** The parsed request body: a JSON array, or anything else. */
  datatype RequestBody = ArrayBody(items: seq<RawItem>) | OtherBody

  /** `400 {'detail': 'Expected a list of professional objects.'}` or `200` with the buckets. */
  datatype BulkResponse = NotAList | Report(buckets: Buckets)

  function BulkStatus(r: BulkResponse): nat {
    if r.NotAList? then 400 else 200
  }

  /** The body of the loop for the item at `index`: one write at most, and the outcome
      appended to its bucket. */
  method Step(table: Table, index: nat, item: RawItem, isEmail: string -> bool, b: Buckets)
    returns (b': Buckets)
    requires table.Valid()
    modifies table
    ensures table.Valid()
    ensures (table.State(), b') ==
      var (after, o) := ProcessItem(old(table.State()), item, isEmail);
      (after, Record(b, index, item, o))
  {
    var validation := ValidateBulkItem(item, isEmail);
    if validation.Failure? {
      return b.(errors := b.errors + [Error(index, item, validation.error)]);
    }
    var outcome := Write(table, validation.value);
    b' := Record(b, index, item, outcome);
  }

  /** Steps 2 to 4 on the table for a validated item. */
  method Write(table: Table, v: ValidatedItem) returns (outcome: Outcome)
    requires table.Valid()
    modifies table
    ensures table.Valid()
    ensures (table.State(), outcome) == ProcessValidated(old(table.State()), v)
  {
    var key := KeyOf(v);
    if key.Missing? {
      return Failed(IdentityMissingErrors);
    }
    var existing := Lookup(table.rows, key);
    if existing.Some? {
      var i := existing.value;
      var ok := table.Save(i, ApplyFields(table.rows[i].profile, v));
      if ok {
        outcome := Updated(table.rows[i]);
      } else {
        outcome := Failed(IntegrityErrors);
      }
    } else {
      var row := table.Create(NewProfile(v));
      if row.Some? {
        outcome := Created(row.value);
      } else {
        outcome := Failed(IntegrityErrors);
      }
    }
  }

  /** `ProfessionalBulkUpsertView.post`. */
  method BulkUpsert(table: Table, body: RequestBody, isEmail: string -> bool) returns (resp: BulkResponse)
    requires table.Valid()
    modifies table
    ensures table.Valid()
    ensures BulkStatus(resp) == (if body.OtherBody? then 400 else 200)
    ensures body.OtherBody? ==> resp == NotAList && table.State() == old(table.State())
    ensures body == ArrayBody([]) ==> resp == Report(NoEntries) && table.State() == old(table.State())
    ensures body.ArrayBody? ==>
      var (after, buckets) := Run(old(table.State()), body.items, isEmail);
      resp == Report(buckets) && table.State() == after
  {
    if body.OtherBody? {
      return NotAList;
    }
    var items := body.items;
    ghost var start := table.State();
    var buckets := NoEntries;
    var index := 0;
    while index < |items|
      invariant 0 <= index <= |items|
      invariant table.Valid()
      invariant (table.State(), buckets) == Run(start, items[..index], isEmail)
    {
      assert items[..index + 1][..index] == items[..index];
      buckets := Step(table, index, items[index], isEmail, buckets);
      index := index + 1;
    }
    assert items[..index] == items;
    resp := Report(buckets);
  }

  /** The single-create answers: `201` with the row, `400` with the field errors, or the
      unhandled `IntegrityError` of a write the validators let through (`500`). */
  datatype CreateResponse = CreatedOne(professional: Professional) | BadRequest(errors: ErrorMap) | ServerError

  function CreateStatus(r: CreateResponse): nat {
    match r
    case CreatedOne(_) => 201
    case BadRequest(_) => 400
    case ServerError => 500
  }

  /** The insert of a single create whose data passed validation: `201` with the new row when
      it fits the unique constraints, otherwise the unhandled `IntegrityError` (`500`). */
  function CreateValidated(db: Db, v: ValidatedItem): (r: (Db, CreateResponse))
    ensures !r.1.BadRequest?
    ensures r.1.CreatedOne? <==> Fits(db.rows, NewProfile(v), None)
    ensures !r.1.CreatedOne? ==> r == (db, ServerError)
    ensures r.1.CreatedOne? ==>
      && r.1.professional == Professional(db.nextId, NewProfile(v), db.clock)
      && r.0 == Db(db.rows + [r.1.professional], db.nextId + 1, db.clock + 1)
    ensures ValidDb(db) ==> ValidDb(r.0)
    ensures !TakenIn(db.rows, v) ==>
      (r.1 == ServerError <==>
         v.email == Given(Some([])) && exists j :: 0 <= j < |db.rows| && db.rows[j].profile.email == Some([]))
  {
    InsertFailsOnBlankEmailOnly(db.rows, v);
    var (db', row) := Insert(db, NewProfile(v));
    if row.Some? then (db', CreatedOne(row.value)) else (db, ServerError)
  }

  /** `POST /api/professionals/` as a value: validate with the unique validators against the
      stored rows, then insert. */
  function CreateSpec(db: Db, item: RawItem, isEmail: string -> bool): (r: (Db, CreateResponse))
    ensures !r.1.CreatedOne? ==> r.0 == db
    ensures ValidDb(db) ==> ValidDb(r.0)
    ensures ValidateNew(item, db.rows, isEmail).Failure? ==>
      r == (db, BadRequest(ValidateNew(item, db.rows, isEmail).error))
    ensures ValidateNew(item, db.rows, isEmail).Success? ==>
      r == CreateValidated(db, ValidateNew(item, db.rows, isEmail).value)
    ensures r.1 == ServerError <==>
      && ValidateNew(item, db.rows, isEmail).Success?
      && ValidateNew(item, db.rows, isEmail).value.email == Given(Some([]))
      && exists j :: 0 <= j < |db.rows| && db.rows[j].profile.email == Some([])
  {
    match ValidateNew(item, db.rows, isEmail)
    case Failure(e) => (db, BadRequest(e))
    case Success(v) => CreateValidated(db, v)
  }

  /** Data that passed the unique validators collides with a stored row only through the
      email `''`, which the validators skip but the column stores as a value. */
  lemma InsertFailsOnBlankEmailOnly(rows: seq<Professional>, v: ValidatedItem)
    ensures !TakenIn(rows, v) ==>
      (!Fits(rows, NewProfile(v), None) <==>
         v.email == Given(Some([])) && exists j :: 0 <= j < |rows| && rows[j].profile.email == Some([]))
  {
    var p := NewProfile(v);
    assert p == Fresh(v);
    if !TakenIn(rows, v) && !Fits(rows, p, None) {
      var j :| 0 <= j < |rows| && Collide(p, rows[j].profile);
      assert rows[j].profile.phone != v.phone;
      assert p.email.Some? && p.email == rows[j].profile.email;
    }
    if v.email == Given(Some([])) && exists j :: 0 <= j < |rows| && rows[j].profile.email == Some([]) {
      var j :| 0 <= j < |rows| && rows[j].profile.email == Some([]);
      assert Collide(p, rows[j].profile);
    }
  }

  /** `ProfessionalListCreateView.post` (the create of a `ListCreateAPIView`). */
  method CreateOne(table: Table, item: RawItem, isEmail: string -> bool) returns (resp: CreateResponse)
    requires table.Valid()
    modifies table
    ensures table.Valid()
    ensures (table.State(), resp) == CreateSpec(old(table.State()), item, isEmail)
  {
    var validation := ValidateNew(item, table.rows, isEmail);
    if validation.Failure? {
      return BadRequest(validation.error);
    }
    var row := table.Create(NewProfile(validation.value));
    if row.Some? {
      resp := CreatedOne(row.value);
    } else {
      resp := ServerError;
    }
  }
}
