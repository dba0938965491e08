/** What the bulk upsert promises of one item: which row it matches, that a matched row is
    updated in place and keeps the columns the item leaves out, that resubmitting an item
    changes nothing, and how the email and phone keys interact with the unique constraints. */
module UpsertProperties {
  import opened Common
  import opened Models
  import opened Serializers
  import opened Store
  import opened Views
  import opened BatchProperties

  /** The serializer's error maps are never the identity-missing answer. */
  lemma ValidationErrorsDiffer(item: RawItem, isEmail: string -> bool)
    ensures ValidateBulkItem(item, isEmail).Failure? ==>
      ValidateBulkItem(item, isEmail).error != IdentityMissingErrors
  {
    assert NonFieldErrors in IdentityMissingErrors;
    match item {
      case NullItem =>
        assert map[NonFieldErrors := [Null]][NonFieldErrors] != IdentityMissingErrors[NonFieldErrors];
      case OtherItem =>
        assert map[NonFieldErrors := [Invalid]][NonFieldErrors] != IdentityMissingErrors[NonFieldErrors];
      case ObjectItem(m) =>
    }
  }

  /** A non-blank phone is always a lookup key, so the write never fails for a missing key. */
  lemma KeyedWrite(db: Db, v: ValidatedItem)
    requires v.phone != []
    ensures !KeyOf(v).Missing?
    ensures ProcessValidated(db, v).1 != Failed(IdentityMissingErrors)
  {
    assert IntegrityErrors[NonFieldErrors] != IdentityMissingErrors[NonFieldErrors];
  }

  /** A validated item always has a lookup key (its phone is required and non-blank), so the
      "Either email or phone is required." answer is never given. */
  lemma IdentityAlwaysPresent(db: Db, item: RawItem, isEmail: string -> bool)
    ensures ValidateBulkItem(item, isEmail).Success? ==>
      !KeyOf(ValidateBulkItem(item, isEmail).value).Missing?
    ensures ProcessItem(db, item, isEmail).1 != Failed(IdentityMissingErrors)
  {
    ValidationErrorsDiffer(item, isEmail);
    if ValidateBulkItem(item, isEmail).Success? {
      KeyedWrite(db, ValidateBulkItem(item, isEmail).value);
    }
  }

  /** A row that holds the item's key is the row the item updates: the item never creates a
      second row for it, and it is answered as updated exactly when the merged row still fits
      the unique constraints. This is the phone lookup when the item has no email, and the
      email lookup when it has one. */
  lemma MatchedRowIsUpdated(db: Db, v: ValidatedItem, i: nat)
    requires ValidDb(db)
    requires i < |db.rows| && Matches(db.rows[i], KeyOf(v))
    ensures var r := ProcessValidated(db, v);
      && !r.1.Created?
      && (r.1.Updated? <==> Fits(db.rows, ApplyFields(db.rows[i].profile, v), Some(i)))
      && (r.1.Updated? ==> r.1.row.id == db.rows[i].id && r.0.rows[i] == r.1.row)
  {
    assert Lookup(db.rows, KeyOf(v)) == Some(i);
  }

  /** An email that no row holds is not retried by phone: the item is inserted, and if its
      phone is already stored the insert fails on the unique constraint. */
  lemma EmailMissDoesNotFallBack(db: Db, v: ValidatedItem, j: nat)
    requires HasEmail(v)
    requires forall i :: 0 <= i < |db.rows| ==> db.rows[i].profile.email != v.email.value
    requires j < |db.rows| && db.rows[j].profile.phone == v.phone
    ensures ProcessValidated(db, v) == (db, Failed(IntegrityErrors))
  {
    assert Lookup(db.rows, KeyOf(v)).None?;
    assert Collide(NewProfile(v), db.rows[j].profile);
  }

  /** The item's key finds one row while its phone belongs to another (an email held by one
      record and a phone held by a second): the update would give two rows the same phone,
      so it fails on the unique constraint and the table is left as it was. */
  lemma KeyAndPhoneOnDifferentRows(db: Db, v: ValidatedItem, i: nat, j: nat)
    requires ValidDb(db)
    requires i < |db.rows| && Matches(db.rows[i], KeyOf(v))
    requires j < |db.rows| && j != i && db.rows[j].profile.phone == v.phone
    ensures ProcessValidated(db, v) == (db, Failed(IntegrityErrors))
  {
    assert Lookup(db.rows, KeyOf(v)) == Some(i);
    var p := ApplyFields(db.rows[i].profile, v);
    assert p.phone == v.phone by {
      assert ColumnOf(p, Phone) == Written(v, Phone, ColumnOf(db.rows[i].profile, Phone));
    }
    assert Collide(p, db.rows[j].profile);
  }

  /** The email `''` is stored as `''`, not NULL, and does not count as an email for the
      lookup: an item with `''` and a new phone is inserted, and the insert fails once any
      row already holds `''`. */
  lemma BlankEmailCollides(db: Db, v: ValidatedItem, j: nat)
    requires v.email == Given(Some([])) && v.phone != []
    requires forall i :: 0 <= i < |db.rows| ==> db.rows[i].profile.phone != v.phone
    requires j < |db.rows| && db.rows[j].profile.email == Some([])
    ensures ProcessValidated(db, v) == (db, Failed(IntegrityErrors))
  {
    assert KeyOf(v) == ByPhone(v.phone);
    assert Lookup(db.rows, KeyOf(v)).None?;
    assert NewProfile(v).email == Some([]);
    assert Collide(NewProfile(v), db.rows[j].profile);
  }

  /** Where a successful write of `v` put its row. */
  function WrittenAt(db: Db, v: ValidatedItem): nat {
    if ProcessValidated(db, v).1.Created? then |db.rows| else
      match Lookup(db.rows, KeyOf(v))
      case Some(i) => i
      case None => 0
  }

  /** After a write of `v`, the lookup by the same key finds exactly the row written. */
  lemma WrittenRowFound(db: Db, v: ValidatedItem)
    requires ValidDb(db)
    requires !ProcessValidated(db, v).1.Failed?
    ensures var (db1, o) := ProcessValidated(db, v);
      var w := WrittenAt(db, v);
      && w < |db1.rows| && db1.rows[w] == o.row
      && Lookup(db1.rows, KeyOf(v)) == Some(w)
  {
    var (db1, o) := ProcessValidated(db, v);
    var w := WrittenAt(db, v);
    var key := KeyOf(v);
    assert !key.Missing?;
    if o.Created? {
      assert o.row.profile == Fresh(v);
    } else {
      assert o.row.profile == Overwrite(db.rows[w].profile, v);
    }
    assert Matches(db1.rows[w], key);
  }

  lemma OverwriteAgain(p: Profile, v: ValidatedItem)
    ensures ApplyFields(ApplyFields(p, v), v) == ApplyFields(p, v)
  {
  }

  lemma OverwriteFresh(v: ValidatedItem)
    ensures ApplyFields(NewProfile(v), v) == NewProfile(v)
  {
  }

  /** Writing a stored row's own profile back is a successful update that changes nothing. */
  lemma RewriteSame(db: Db, w: nat)
    requires ValidDb(db) && w < |db.rows|
    ensures Update(db, w, db.rows[w].profile) == (db, true)
  {
    var p := db.rows[w].profile;
    forall j | 0 <= j < |db.rows| && j != w ensures !Collide(p, db.rows[j].profile) {
      if j < w {
        assert !Collide(db.rows[j].profile, p);
      } else {
        assert !Collide(p, db.rows[j].profile);
      }
    }
    assert db.rows[w := Professional(db.rows[w].id, p, db.rows[w].createdAt)] == db.rows;
  }

  /** Writing the same validated data twice: the second write finds the row of the first,
      changes nothing, and answers "updated" with the same record. */
  lemma ResubmitValidated(db: Db, v: ValidatedItem)
    requires ValidDb(db)
    requires !ProcessValidated(db, v).1.Failed?
    ensures var (db1, o) := ProcessValidated(db, v);
      ProcessValidated(db1, v) == (db1, Updated(o.row))
  {
    WrittenRowFound(db, v);
    var (db1, o) := ProcessValidated(db, v);
    var w := WrittenAt(db, v);
    var p := db1.rows[w].profile;
    if o.Created? {
      OverwriteFresh(v);
    } else {
      OverwriteAgain(db.rows[w].profile, v);
    }
    assert ApplyFields(p, v) == p;
    RewriteSame(db1, w);
  }

  /** Resubmitting an item that was created or updated is answered "updated" with the same
      record and leaves the table as it is. */
  lemma Resubmit(db: Db, item: RawItem, isEmail: string -> bool)
    requires ValidDb(db)
    requires !ProcessItem(db, item, isEmail).1.Failed?
    ensures var (db1, o) := ProcessItem(db, item, isEmail);
      ProcessItem(db1, item, isEmail) == (db1, Updated(o.row))
  {
    ResubmitValidated(db, ValidateBulkItem(item, isEmail).value);
  }

  /** A later item with the same key as an earlier one sees the row the earlier one wrote: it
      updates that row (same `id`) or fails, and never creates a second row. */
  lemma LaterItemSeesEarlierWrite(db: Db, v: ValidatedItem, v2: ValidatedItem)
    requires ValidDb(db)
    requires !ProcessValidated(db, v).1.Failed?
    requires KeyOf(v2) == KeyOf(v)
    ensures var (db1, o) := ProcessValidated(db, v);
      var o2 := ProcessValidated(db1, v2).1;
      !o2.Created? && (o2.Updated? ==> o2.row.id == o.row.id)
  {
    WrittenRowFound(db, v);
    var db1 := ProcessValidated(db, v).0;
    MatchedRowIsUpdated(db1, v2, WrittenAt(db, v));
  }

  /** An update writes only the fields the item has: the columns it leaves out keep their
      stored values, and the row keeps its `id` and `created_at`. */
  lemma OmittedFieldsKept(db: Db, item: RawItem, isEmail: string -> bool)
    requires item.ObjectItem?
    requires ProcessItem(db, item, isEmail).1.Updated?
    ensures var v := ValidateBulkItem(item, isEmail).value;
      var i := Lookup(db.rows, KeyOf(v)).value;
      var row := ProcessItem(db, item, isEmail).1.row;
      && row.id == db.rows[i].id && row.createdAt == db.rows[i].createdAt
      && row.profile.fullName == v.fullName && row.profile.phone == v.phone
      && row.profile.source == v.source
      && ("email" !in item.members ==> row.profile.email == db.rows[i].profile.email)
      && ("company_name" !in item.members ==> row.profile.companyName == db.rows[i].profile.companyName)
      && ("job_title" !in item.members ==> row.profile.jobTitle == db.rows[i].profile.jobTitle)
  {
    var m := item.members;
    assert ValidateBulkItem(item, isEmail).value == Assemble(m, None, isEmail);
  }

  // ---------------------------------------------------------------------------------------
  // Two submissions of the same person in one batch.

  /** Text that trimming leaves as it is and that has no NUL character. */
  predicate Plain(s: string) {
    s != [] && !IsSpace(s[0]) && !IsSpace(s[|s| - 1]) && '\0' !in s
  }

  /** Two names, one email and one phone that the serializer takes as they are. */
  predicate Applicants(first: string, second: string, email: string, phone: string, isEmail: string -> bool) {
    && Plain(first) && |first| <= FullNameMaxLength
    && Plain(second) && |second| <= FullNameMaxLength
    && Plain(email) && |email| <= EmailMaxLength && isEmail(email)
    && Plain(phone) && |phone| <= PhoneMaxLength
  }

  /** An applicant object with source `direct` and no company or job title. */
  function Applicant(name: string, email: string, phone: string): RawItem {
    ObjectItem(map["full_name" := JString(name), "email" := JString(email),
                   "phone" := JString(phone), "source" := JString("direct")])
  }

  /** The validated data of `Applicant(name, email, phone)`. */
  function ApplicantData(name: string, email: string, phone: string): ValidatedItem {
    ValidatedItem(name, Given(Some(email)), phone, Omitted, Omitted, Direct)
  }

  lemma ApplicantMembers(name: string, email: string, phone: string)
    ensures var m := Applicant(name, email, phone).members;
      && Member(m, "full_name") == Some(JString(name))
      && Member(m, "email") == Some(JString(email))
      && Member(m, "phone") == Some(JString(phone))
      && Member(m, "company_name") == None
      && Member(m, "job_title") == None
      && Member(m, "source") == Some(JString("direct"))
  {
  }

  /** Plain text within the length limit that passes the syntax check is accepted as it is. */
  lemma PlainAccepted(s: string, rule: CharRule, syntax: Option<string -> bool>)
    requires Plain(s) && |s| <= rule.maxLength && (syntax.Some? ==> syntax.value(s))
    ensures CharField(Some(JString(s)), rule, None, syntax) == Accepted(s)
  {
    assert Strip(s) == s;
  }

  lemma ApplicantChecks(name: string, email: string, phone: string, isEmail: string -> bool)
    requires Applicants(name, name, email, phone, isEmail)
    ensures var m := Applicant(name, email, phone).members;
      && NameCheck(m) == Accepted(name)
      && EmailCheck(m, None, isEmail) == Accepted(Some(email))
      && PhoneCheck(m, None) == Accepted(phone)
      && CompanyNameCheck(m) == Absent && JobTitleCheck(m) == Absent
      && SourceCheck(m) == Accepted(Direct)
  {
    ApplicantMembers(name, email, phone);
    PlainAccepted(name, FullNameRule, None);
    PlainAccepted(email, EmailRule, Some(isEmail));
    PlainAccepted(phone, PhoneRule, None);
  }

  lemma ApplicantValidates(name: string, email: string, phone: string, isEmail: string -> bool)
    requires Applicants(name, name, email, phone, isEmail)
    ensures ValidateBulkItem(Applicant(name, email, phone), isEmail) ==
      Success(ApplicantData(name, email, phone))
  {
    ApplicantChecks(name, email, phone, isEmail);
  }

  lemma FirstWrite(first: string, email: string, phone: string)
    requires email != []
    ensures var row := Professional(1, NewProfile(ApplicantData(first, email, phone)), 0);
      ProcessValidated(EmptyDb, ApplicantData(first, email, phone)) == (Db([row], 2, 1), Created(row))
  {
    var p := NewProfile(ApplicantData(first, email, phone));
    assert KeyOf(ApplicantData(first, email, phone)) == ByEmail(email);
    assert Lookup([], ByEmail(email)) == None;
    assert Fits([], p, None);
    var row := Professional(1, p, 0);
    assert Insert(EmptyDb, p) == (Db([] + [row], 2, 1), Some(row));
    assert [] + [row] == [row];
  }

  lemma FirstItem(first: string, email: string, phone: string, isEmail: string -> bool)
    requires Applicants(first, first, email, phone, isEmail)
    ensures var row := Professional(1, NewProfile(ApplicantData(first, email, phone)), 0);
      ProcessItem(EmptyDb, Applicant(first, email, phone), isEmail) == (Db([row], 2, 1), Created(row))
  {
    ApplicantValidates(first, email, phone, isEmail);
    FirstWrite(first, email, phone);
  }

  /** A batch of one item. */
  lemma RunOne(db: Db, item: RawItem, isEmail: string -> bool)
    ensures var (after, o) := ProcessItem(db, item, isEmail);
      Run(db, [item], isEmail) == (after, Record(NoEntries, 0, item, o))
  {
    assert [item][..0] == [];
  }

  lemma RecordFirst(item: RawItem, row: Professional)
    ensures Record(NoEntries, 0, item, Created(row)) == Buckets([Saved(0, row)], [], [])
  {
    assert [] + [Saved(0, row)] == [Saved(0, row)];
  }

  lemma FirstApplicant(first: string, email: string, phone: string, isEmail: string -> bool)
    requires Applicants(first, first, email, phone, isEmail)
    ensures var row := Professional(1, NewProfile(ApplicantData(first, email, phone)), 0);
      Run(EmptyDb, [Applicant(first, email, phone)], isEmail) ==
        (Db([row], 2, 1), Buckets([Saved(0, row)], [], []))
  {
    var row := Professional(1, NewProfile(ApplicantData(first, email, phone)), 0);
    FirstItem(first, email, phone, isEmail);
    RunOne(EmptyDb, Applicant(first, email, phone), isEmail);
    RecordFirst(Applicant(first, email, phone), row);
  }

  lemma SecondWrite(first: string, second: string, email: string, phone: string)
    requires email != []
    ensures var db1 := Db([Professional(1, NewProfile(ApplicantData(first, email, phone)), 0)], 2, 1);
      var p := ApplyFields(NewProfile(ApplicantData(first, email, phone)), ApplicantData(second, email, phone));
      ProcessValidated(db1, ApplicantData(second, email, phone)) ==
        (Db([Professional(1, p, 0)], 2, 1), Updated(Professional(1, p, 0)))
  {
    var db1 := Db([Professional(1, NewProfile(ApplicantData(first, email, phone)), 0)], 2, 1);
    assert KeyOf(ApplicantData(second, email, phone)) == ByEmail(email);
    assert Has(db1.rows[0], EmailColumn, email);
    assert Lookup(db1.rows, ByEmail(email)) == Some(0);
    var p := ApplyFields(NewProfile(ApplicantData(first, email, phone)), ApplicantData(second, email, phone));
    assert Fits(db1.rows, p, Some(0));
    var row := Professional(1, p, 0);
    assert Update(db1, 0, p).0.rows == db1.rows[0 := row];
    assert db1.rows[0 := row] == [row];
  }

  lemma SecondApplicant(first: string, second: string, email: string, phone: string, isEmail: string -> bool)
    requires Applicants(second, second, email, phone, isEmail)
    ensures var db1 := Db([Professional(1, NewProfile(ApplicantData(first, email, phone)), 0)], 2, 1);
      var p := ApplyFields(NewProfile(ApplicantData(first, email, phone)), ApplicantData(second, email, phone));
      ProcessItem(db1, Applicant(second, email, phone), isEmail) ==
        (Db([Professional(1, p, 0)], 2, 1), Updated(Professional(1, p, 0)))
  {
    ApplicantValidates(second, email, phone, isEmail);
    SecondWrite(first, second, email, phone);
  }

  lemma RecordSecond(row1: Professional, item: RawItem, row2: Professional)
    ensures Record(Buckets([Saved(0, row1)], [], []), 1, item, Updated(row2)) ==
      Buckets([Saved(0, row1)], [Saved(1, row2)], [])
  {
    assert [] + [Saved(1, row2)] == [Saved(1, row2)];
  }

  /** A batch that submits the same person twice (same email and phone) on an empty table:
      the first item creates the row, the second updates it, and the table ends with one row
      carrying the second name. */
  lemma SameEmailTwice(first: string, second: string, email: string, phone: string, isEmail: string -> bool)
    requires Applicants(first, second, email, phone, isEmail)
    ensures var (db, b) := Run(EmptyDb, [Applicant(first, email, phone), Applicant(second, email, phone)], isEmail);
      && |b.created| == 1 && b.created[0].index == 0
      && |b.updated| == 1 && b.updated[0].index == 1
      && b.errors == []
      && |db.rows| == 1 && db.rows[0].id == 1 && db.rows[0].profile.fullName == second
  {
    var items := [Applicant(first, email, phone), Applicant(second, email, phone)];
    assert items[..1] == [Applicant(first, email, phone)];
    var row1 := Professional(1, NewProfile(ApplicantData(first, email, phone)), 0);
    var p := ApplyFields(NewProfile(ApplicantData(first, email, phone)), ApplicantData(second, email, phone));
    assert p.fullName == second;
    FirstApplicant(first, email, phone, isEmail);
    SecondApplicant(first, second, email, phone, isEmail);
    RunLast(EmptyDb, items, isEmail);
    RecordSecond(row1, items[1], Professional(1, p, 0));
  }
}
