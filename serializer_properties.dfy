/** What the two serializers promise: the single-create serializer is the bulk item
    serializer plus the unique checks on email and phone; duplicates, malformed emails,
    missing and blank required fields are reported under the field's own key; an email may
    be left out, `null` or blank. */
module SerializerProperties {
  import opened Common
  import opened Models
  import opened Serializers
  import opened Store
  import opened Views

  /** Adding a unique validator only removes non-blank values already taken. */
  lemma UniqueOnlyNarrows(raw: Option<JsonValue>, rule: CharRule, t: set<string>,
                          syntax: Option<string -> bool>)
    ensures var a := CharField(raw, rule, Some(t), syntax);
      var b := CharField(raw, rule, None, syntax);
      && (a.Absent? <==> b.Absent?)
      && (a.Accepted? <==> b.Accepted? && (b.value == [] || b.value !in t))
      && (a.Accepted? ==> a.value == b.value)
  {
  }

  lemma EmailUnique(m: map<string, JsonValue>, rows: seq<Professional>, isEmail: string -> bool)
    ensures var a := EmailCheck(m, Some(rows), isEmail);
      var b := EmailCheck(m, None, isEmail);
      && (a.Absent? <==> b.Absent?)
      && (a.Accepted? <==>
            b.Accepted? &&
            (b.value.None? || b.value.value == [] || b.value.value !in EmailsTaken(Some(rows)).value))
      && (a.Accepted? ==> a.value == b.value)
  {
    UniqueOnlyNarrows(Member(m, "email"), EmailRule, EmailsTaken(Some(rows)).value, Some(isEmail));
  }

  lemma PhoneUnique(m: map<string, JsonValue>, rows: seq<Professional>)
    ensures var a := PhoneCheck(m, Some(rows));
      var b := PhoneCheck(m, None);
      && (a.Absent? <==> b.Absent?)
      && (a.Accepted? <==> b.Accepted? && b.value !in PhonesTaken(Some(rows)).value)
      && (a.Accepted? ==> a.value == b.value)
  {
    UniqueOnlyNarrows(Member(m, "phone"), PhoneRule, PhonesTaken(Some(rows)).value, None);
  }

  /** A stored phone or non-blank email is exactly what the unique validators find. */
  lemma TakenInIff(rows: seq<Professional>, v: ValidatedItem)
    ensures TakenIn(rows, v) <==>
      v.phone in PhonesTaken(Some(rows)).value ||
      (v.email.Given? && v.email.value.Some? && v.email.value.value != [] &&
       v.email.value.value in EmailsTaken(Some(rows)).value)
  {
    if TakenIn(rows, v) {
      TakenInSets(rows, v);
    }
    if v.phone in PhonesTaken(Some(rows)).value {
      var i :| 0 <= i < |rows| && rows[i].profile.phone == v.phone;
    }
    if v.email.Given? && v.email.value.Some? && v.email.value.value != [] &&
       v.email.value.value in EmailsTaken(Some(rows)).value {
      var i :| 0 <= i < |rows| && rows[i].profile.email.Some? &&
        rows[i].profile.email.value == v.email.value.value;
      assert rows[i].profile.email == v.email.value;
    }
  }

  lemma AssembleSame(m: map<string, JsonValue>, rows: seq<Professional>, isEmail: string -> bool)
    requires AllFieldsPass(m, Some(rows), isEmail) && AllFieldsPass(m, None, isEmail)
    ensures Assemble(m, Some(rows), isEmail) == Assemble(m, None, isEmail)
  {
    EmailUnique(m, rows, isEmail);
    PhoneUnique(m, rows);
  }

  /** `ProfessionalSerializer` accepts an item exactly when `BulkProfessionalItemSerializer`
      accepts it and neither its phone nor its non-blank email is stored yet; both then
      produce the same validated data. */
  lemma SingleIsBulkPlusUnique(item: RawItem, rows: seq<Professional>, isEmail: string -> bool)
    ensures ValidateNew(item, rows, isEmail).Success? <==>
      ValidateBulkItem(item, isEmail).Success? && !TakenIn(rows, ValidateBulkItem(item, isEmail).value)
    ensures ValidateNew(item, rows, isEmail).Success? ==>
      ValidateNew(item, rows, isEmail).value == ValidateBulkItem(item, isEmail).value
  {
    if item.ObjectItem? {
      var m := item.members;
      EmailUnique(m, rows, isEmail);
      PhoneUnique(m, rows);
      if AllFieldsPass(m, None, isEmail) {
        var v := Assemble(m, None, isEmail);
        TakenInIff(rows, v);
        if AllFieldsPass(m, Some(rows), isEmail) {
          AssembleSame(m, rows, isEmail);
        }
      }
    }
  }

  /** `ProfessionalSerializer` rejects a non-blank email that a row already holds, under
      `email` with the `unique` code, whatever the other fields hold; the single create
      answers 400 and stores nothing. */
  lemma DuplicateEmailRejected(db: Db, m: map<string, JsonValue>, isEmail: string -> bool, j: nat)
    requires "email" in m && Textual(m["email"]) && Strip(TextOf(m["email"])) != []
    requires j < |db.rows| && db.rows[j].profile.email == Some(Strip(TextOf(m["email"])))
    ensures var r := ValidateNew(ObjectItem(m), db.rows, isEmail);
      && r.Failure? && FieldKey(Email) in r.error && Unique in r.error[FieldKey(Email)]
      && CreateSpec(db, ObjectItem(m), isEmail) == (db, BadRequest(r.error))
  {
    assert Member(m, "email") == Some(m["email"]);
    var e := Strip(TextOf(m["email"]));
    assert e in EmailsTaken(Some(db.rows)).value;
    var issues := RunValidators(e, EmailRule, EmailsTaken(Some(db.rows)), Some(isEmail));
    assert Unique in issues;
    assert EmailCheck(m, Some(db.rows), isEmail) == Rejected(issues);
    EmailReported(m, Some(db.rows), isEmail);
  }

  /** The same for a phone that a row already holds, under `phone`. */
  lemma DuplicatePhoneRejected(db: Db, m: map<string, JsonValue>, isEmail: string -> bool, j: nat)
    requires "phone" in m && Textual(m["phone"]) && Strip(TextOf(m["phone"])) != []
    requires j < |db.rows| && db.rows[j].profile.phone == Strip(TextOf(m["phone"]))
    ensures var r := ValidateNew(ObjectItem(m), db.rows, isEmail);
      && r.Failure? && FieldKey(Phone) in r.error && Unique in r.error[FieldKey(Phone)]
      && CreateSpec(db, ObjectItem(m), isEmail) == (db, BadRequest(r.error))
  {
    assert Member(m, "phone") == Some(m["phone"]);
    var p := Strip(TextOf(m["phone"]));
    assert p in PhonesTaken(Some(db.rows)).value;
    var issues := RunValidators(p, PhoneRule, PhonesTaken(Some(db.rows)), None);
    assert Unique in issues;
    assert PhoneCheck(m, Some(db.rows)) == Rejected(issues);
    PhoneReported(m, Some(db.rows), isEmail);
  }

  /** The blank email passes the unique validator (blank values skip the validators) but is
      stored as `''`: a second single create with email `''` is a database
      `IntegrityError`, which the view does not catch (a 500 answer). */
  lemma BlankEmailOnCreate(db: Db, item: RawItem, isEmail: string -> bool, j: nat)
    requires ValidateNew(item, db.rows, isEmail).Success?
    requires ValidateNew(item, db.rows, isEmail).value.email == Given(Some([]))
    requires j < |db.rows| && db.rows[j].profile.email == Some([])
    ensures CreateSpec(db, item, isEmail) == (db, ServerError)
    ensures CreateStatus(CreateSpec(db, item, isEmail).1) == 500
  {
    var v := ValidateNew(item, db.rows, isEmail).value;
    assert NewProfile(v).email == Some([]);
    assert Collide(NewProfile(v), db.rows[j].profile);
  }

  /** A non-blank email that fails the email syntax check is rejected under `email` with the
      `invalid` code, by both serializers. */
  lemma InvalidEmailRejected(m: map<string, JsonValue>, unique: Option<seq<Professional>>,
                             isEmail: string -> bool)
    requires "email" in m && Textual(m["email"])
    requires Strip(TextOf(m["email"])) != [] && !isEmail(Strip(TextOf(m["email"])))
    ensures var r := ValidateItem(ObjectItem(m), unique, isEmail);
      r.Failure? && FieldKey(Email) in r.error && Invalid in r.error[FieldKey(Email)]
  {
    var raw := m["email"];
    assert Member(m, "email") == Some(raw);
    var s := Strip(TextOf(raw));
    var issues := RunValidators(s, EmailRule, EmailsTaken(unique), Some(isEmail));
    assert Invalid in issues;
    assert EmailCheck(m, unique, isEmail) == Rejected(issues);
    assert !AllFieldsPass(m, unique, isEmail);
  }

  lemma EmailLeftOutCheck(m: map<string, JsonValue>, unique: Option<seq<Professional>>,
                          isEmail: string -> bool)
    requires "email" !in m || m["email"] == JNull || (Textual(m["email"]) && AllSpace(TextOf(m["email"])))
    ensures EmailCheck(m, unique, isEmail) ==
      if "email" !in m then Absent else if m["email"] == JNull then Accepted(None) else Accepted(Some([]))
  {
    assert "email" in m ==> Member(m, "email") == Some(m["email"]);
  }

  /** An email may be left out, `null`, or blank: none of these is an error. The validated
      data then has no email, NULL, or `''` respectively. */
  lemma EmailMayBeLeftOut(m: map<string, JsonValue>, unique: Option<seq<Professional>>,
                          isEmail: string -> bool)
    requires "email" !in m || m["email"] == JNull || (Textual(m["email"]) && AllSpace(TextOf(m["email"])))
    ensures var r := ValidateItem(ObjectItem(m), unique, isEmail);
      && (r.Failure? ==> FieldKey(Email) !in r.error)
      && (r.Success? ==>
            r.value.email ==
            if "email" !in m then Omitted else if m["email"] == JNull then Given(None) else Given(Some([])))
  {
    EmailLeftOutCheck(m, unique, isEmail);
    assert IssuesOf(EmailCheck(m, unique, isEmail)) == [];
    if AllFieldsPass(m, unique, isEmail) {
      assert ValidateItem(ObjectItem(m), unique, isEmail).value.email == EmailOf(m, unique, isEmail);
    }
  }

  /** A field's issues are reported under its own key. */
  lemma NameReported(m: map<string, JsonValue>, unique: Option<seq<Professional>>, isEmail: string -> bool)
    requires IssuesOf(NameCheck(m)) != []
    ensures var r := ValidateItem(ObjectItem(m), unique, isEmail);
      r.Failure? && r.error[FieldKey(FullName)] == IssuesOf(NameCheck(m))
  {
  }

  lemma EmailReported(m: map<string, JsonValue>, unique: Option<seq<Professional>>, isEmail: string -> bool)
    requires IssuesOf(EmailCheck(m, unique, isEmail)) != []
    ensures var r := ValidateItem(ObjectItem(m), unique, isEmail);
      r.Failure? && r.error[FieldKey(Email)] == IssuesOf(EmailCheck(m, unique, isEmail))
  {
  }

  lemma PhoneReported(m: map<string, JsonValue>, unique: Option<seq<Professional>>, isEmail: string -> bool)
    requires IssuesOf(PhoneCheck(m, unique)) != []
    ensures var r := ValidateItem(ObjectItem(m), unique, isEmail);
      r.Failure? && r.error[FieldKey(Phone)] == IssuesOf(PhoneCheck(m, unique))
  {
  }

  lemma SourceReported(m: map<string, JsonValue>, unique: Option<seq<Professional>>, isEmail: string -> bool)
    requires IssuesOf(SourceCheck(m)) != []
    ensures var r := ValidateItem(ObjectItem(m), unique, isEmail);
      r.Failure? && r.error[FieldKey(SourceField)] == IssuesOf(SourceCheck(m))
  {
  }

  /** `full_name`, `phone` and `source` are required: leaving one out is reported under its
      own key with the `required` code, by both serializers. */
  lemma RequiredFieldsEnforced(m: map<string, JsonValue>, unique: Option<seq<Professional>>,
                               isEmail: string -> bool)
    ensures var r := ValidateItem(ObjectItem(m), unique, isEmail);
      && ("full_name" !in m ==> r.Failure? && r.error[FieldKey(FullName)] == [Required])
      && ("phone" !in m ==> r.Failure? && r.error[FieldKey(Phone)] == [Required])
      && ("source" !in m ==> r.Failure? && r.error[FieldKey(SourceField)] == [Required])
  {
    if "full_name" !in m {
      assert NameCheck(m) == Rejected([Required]);
      NameReported(m, unique, isEmail);
    }
    if "phone" !in m {
      assert PhoneCheck(m, unique) == Rejected([Required]);
      PhoneReported(m, unique, isEmail);
    }
    if "source" !in m {
      assert SourceCheck(m) == Rejected([Required]);
      SourceReported(m, unique, isEmail);
    }
  }

  /** A name or phone that is blank after trimming is reported with the `blank` code. */
  lemma BlankRequiredRejected(m: map<string, JsonValue>, unique: Option<seq<Professional>>,
                              isEmail: string -> bool)
    ensures var r := ValidateItem(ObjectItem(m), unique, isEmail);
      && ("full_name" in m && Textual(m["full_name"]) && AllSpace(TextOf(m["full_name"])) ==>
            r.Failure? && r.error[FieldKey(FullName)] == [Blank])
      && ("phone" in m && Textual(m["phone"]) && AllSpace(TextOf(m["phone"])) ==>
            r.Failure? && r.error[FieldKey(Phone)] == [Blank])
  {
    if "full_name" in m && Textual(m["full_name"]) && AllSpace(TextOf(m["full_name"])) {
      assert Member(m, "full_name") == Some(m["full_name"]);
      assert NameCheck(m) == Rejected([Blank]);
      NameReported(m, unique, isEmail);
    }
    if "phone" in m && Textual(m["phone"]) && AllSpace(TextOf(m["phone"])) {
      assert Member(m, "phone") == Some(m["phone"]);
      assert PhoneCheck(m, unique) == Rejected([Blank]);
      PhoneReported(m, unique, isEmail);
    }
  }

  /** A phone longer than 20 characters after trimming is reported with the `max_length`
      code. */
  lemma LongPhoneRejected(m: map<string, JsonValue>, unique: Option<seq<Professional>>,
                          isEmail: string -> bool)
    requires "phone" in m && Textual(m["phone"]) && |Strip(TextOf(m["phone"]))| > PhoneMaxLength
    ensures var r := ValidateItem(ObjectItem(m), unique, isEmail);
      r.Failure? && MaxLength(PhoneMaxLength) in r.error[FieldKey(Phone)]
  {
    assert Member(m, "phone") == Some(m["phone"]);
    var s := Strip(TextOf(m["phone"]));
    var issues := RunValidators(s, PhoneRule, PhonesTaken(unique), None);
    assert MaxLength(PhoneMaxLength) in issues;
    assert PhoneCheck(m, unique) == Rejected(issues);
    PhoneReported(m, unique, isEmail);
  }

  /** A name longer than 255 characters after trimming is reported with the `max_length`
      code. */
  lemma LongNameRejected(m: map<string, JsonValue>, unique: Option<seq<Professional>>,
                         isEmail: string -> bool)
    requires "full_name" in m && Textual(m["full_name"]) && |Strip(TextOf(m["full_name"]))| > FullNameMaxLength
    ensures var r := ValidateItem(ObjectItem(m), unique, isEmail);
      r.Failure? && MaxLength(FullNameMaxLength) in r.error[FieldKey(FullName)]
  {
    assert Member(m, "full_name") == Some(m["full_name"]);
    var s := Strip(TextOf(m["full_name"]));
    var issues := RunValidators(s, FullNameRule, None, None);
    assert MaxLength(FullNameMaxLength) in issues;
    assert NameCheck(m) == Rejected(issues);
    NameReported(m, unique, isEmail);
  }

  /** `source` must be exactly one of `direct`, `partner`, `internal`; any other text (in any
      letter case, or padded with spaces) is an `invalid_choice`. */
  lemma SourceChoiceEnforced(m: map<string, JsonValue>, unique: Option<seq<Professional>>,
                             isEmail: string -> bool)
    requires "source" in m && Textual(m["source"])
    ensures var r := ValidateItem(ObjectItem(m), unique, isEmail);
      && (ParseSource(TextOf(m["source"])).None? ==>
            r.Failure? && r.error[FieldKey(SourceField)] == [InvalidChoice])
      && (r.Success? ==> SourceText(r.value.source) == TextOf(m["source"]))
  {
    assert Member(m, "source") == Some(m["source"]);
    if ParseSource(TextOf(m["source"])).None? {
      assert SourceCheck(m) == Rejected([InvalidChoice]);
      SourceReported(m, unique, isEmail);
    }
  }
}
