/** The two request serializers (backend/professionals/serializers.py) with the field rules
    that a `ModelSerializer` derives from the `Professional` columns: `ProfessionalSerializer`
    (single create, with a unique validator on email and phone) and
    `BulkProfessionalItemSerializer` (bulk items, the same rules without those two validators). */
module Serializers {
  import opened Common
  import opened Models

  /** One JSON value as the JSON parser hands it over. `JNumber` carries Python's `str()` of
      the number (a `CharField` accepts numbers and converts them); `JOther` is `true`,
      `false`, an array or an object. */
  datatype JsonValue = JNull | JString(s: string) | JNumber(text: string) | JOther

  /** One element of the request array: an object, `null`, or anything else. */
  datatype RawItem = ObjectItem(members: map<string, JsonValue>) | NullItem | OtherItem

  /** The writable fields of `fields = '__all__'` (`id` and `created_at` are read-only). */
  datatype Field = FullName | Email | Phone | CompanyName | JobTitle | SourceField

  /** The JSON member name a field reads. */
  function FieldName(f: Field): string {
    match f
    case FullName => "full_name"
    case Email => "email"
    case Phone => "phone"
    case CompanyName => "company_name"
    case JobTitle => "job_title"
    case SourceField => "source"
  }

  /** Keys of an error map: a field name, or `non_field_errors`. */
  datatype ErrorKey = FieldKey(field: Field) | NonFieldErrors

  /** Error codes. The first eight are the serializer framework's codes; the last two are
      the bulk view's own entries ("Either email or phone is required." and the text of a
      database `IntegrityError`, whose wording is not modelled). */
  datatype Issue =
    | Required | Null | Blank | Invalid | MaxLength(limit: nat) | NullCharacters
    | InvalidChoice | Unique
    | IdentityMissing | IntegrityError

  type ErrorMap = map<ErrorKey, seq<Issue>>

  /** Whether an optional field was in the validated data, and with which value. */
  datatype Provided<+T> = Omitted | Given(value: T)

  /** `serializer.validated_data`: the three required fields are always there. */
  datatype ValidatedItem = ValidatedItem(
    fullName: string,
    email: Provided<Option<string>>,
    phone: string,
    companyName: Provided<string>,
    jobTitle: Provided<string>,
    source: Source)

  /** The result of one field: left out of the validated data, accepted, or rejected. */
  datatype Check<+T> = Absent | Accepted(value: T) | Rejected(issues: seq<Issue>)

  function IssuesOf<T>(c: Check<T>): seq<Issue> {
    if c.Rejected? then c.issues else []
  }

  // ---------------------------------------------------------------------------------------
  // Whitespace trimming of a CharField (Python's str.strip()).

  /** Python's `str.isspace()`: the characters `str.strip()` removes. */
  predicate IsSpace(c: char) {
    || ('\U{9}' <= c <= '\U{D}')
    || ('\U{1C}' <= c <= '\U{20}')
    || c == '\U{85}' || c == '\U{A0}' || c == '\U{1680}'
    || ('\U{2000}' <= c <= '\U{200A}')
    || c == '\U{2028}' || c == '\U{2029}' || c == '\U{202F}' || c == '\U{205F}' || c == '\U{3000}'
  }

  predicate AllSpace(s: string) {
    forall i :: 0 <= i < |s| ==> IsSpace(s[i])
  }

  /** The length of the run of whitespace that starts `s`. */
  function LeadingSpaces(s: string): (n: nat)
    ensures n <= |s|
    ensures AllSpace(s[..n])
    ensures n < |s| ==> !IsSpace(s[n])
    ensures n == |s| <==> AllSpace(s)
  {
    if s == [] || !IsSpace(s[0]) then 0 else 1 + LeadingSpaces(s[1..])
  }

  /** The length of the run of whitespace that ends `s`. */
  function TrailingSpaces(s: string): (n: nat)
    ensures n <= |s|
    ensures AllSpace(s[|s| - n..])
    ensures n < |s| ==> !IsSpace(s[|s| - n - 1])
    ensures n == |s| <==> AllSpace(s)
  {
    if s == [] || !IsSpace(s[|s| - 1]) then 0 else 1 + TrailingSpaces(s[..|s| - 1])
  }

  /** `str.strip()`: `s` without its leading and trailing whitespace. */
  function Strip(s: string): (r: string)
    ensures |r| <= |s|
    ensures r == [] <==> AllSpace(s)
    ensures r != [] ==> !IsSpace(r[0]) && !IsSpace(r[|r| - 1])
    ensures s != [] && !IsSpace(s[0]) && !IsSpace(s[|s| - 1]) ==> r == s
  {
    var a := LeadingSpaces(s);
    if a == |s| then
      assert s[|s|..|s|] == [] && s[..|s|] == s;
      []
    else
      var t := s[a..];
      var b := TrailingSpaces(t);
      assert !IsSpace(t[0]);
      var r := t[..|t| - b];
      var e := a + |t| - b;
      assert r == s[a..e] && s[e..] == t[|t| - b..];
      r
  }

  /** The trimmed text is the part of `s` between its leading and its trailing run of
      whitespace. */
  lemma StripIsInfix(s: string)
    ensures exists a, b :: 0 <= a <= b <= |s| && Strip(s) == s[a..b] && AllSpace(s[..a]) && AllSpace(s[b..])
  {
    var a := LeadingSpaces(s);
    if a == |s| {
      assert Strip(s) == s[|s|..|s|] && s[..|s|] == s;
    } else {
      var t := s[a..];
      var b := TrailingSpaces(t);
      var e := a + |t| - b;
      assert Strip(s) == t[..|t| - b] == s[a..e];
      assert s[e..] == t[|t| - b..];
    }
  }

  // ---------------------------------------------------------------------------------------
  // Field rules.

  /** A JSON value a CharField reads as text. */
  predicate Textual(v: JsonValue) {
    v.JString? || v.JNumber?
  }

  function TextOf(v: JsonValue): string
    requires Textual(v)
  {
    if v.JString? then v.s else v.text
  }

  /** What a ModelSerializer makes of a `CharField` column: `required` unless the column has a
      default or allows blank values, `allow_blank` from `blank=True`, and its `max_length`. */
  datatype CharRule = CharRule(required: bool, allowBlank: bool, maxLength: nat)

  const FullNameRule := CharRule(true, false, FullNameMaxLength)
  const EmailRule := CharRule(false, true, EmailMaxLength)
  const PhoneRule := CharRule(true, false, PhoneMaxLength)
  const CompanyNameRule := CharRule(false, true, CompanyNameMaxLength)
  const JobTitleRule := CharRule(false, true, JobTitleMaxLength)

  /** The validators of a non-blank trimmed value, in their order: the unique validator (if
      the serializer has one: `taken` holds the values already stored), the length limit, the
      NUL-character check and, for an email field, the email syntax check. All are run and all
      their issues are reported. */
  function RunValidators(s: string, rule: CharRule, taken: Option<set<string>>,
                         syntax: Option<string -> bool>): (issues: seq<Issue>)
    ensures issues == [] <==>
      && (taken.Some? ==> s !in taken.value)
      && |s| <= rule.maxLength
      && '\0' !in s
      && (syntax.Some? ==> syntax.value(s))
    ensures taken.Some? && s in taken.value ==> Unique in issues
    ensures |s| > rule.maxLength ==> MaxLength(rule.maxLength) in issues
    ensures '\0' in s ==> NullCharacters in issues
    ensures syntax.Some? && !syntax.value(s) ==> Invalid in issues
  {
    (if taken.Some? && s in taken.value then [Unique] else [])
    + (if |s| > rule.maxLength then [MaxLength(rule.maxLength)] else [])
    + (if '\0' in s then [NullCharacters] else [])
    + (if syntax.Some? && !syntax.value(s) then [Invalid] else [])
  }

  /** Only failing validators report, each at most once. */
  lemma OnlyFailingValidators(s: string, rule: CharRule, taken: Option<set<string>>,
                              syntax: Option<string -> bool>)
    ensures var issues := RunValidators(s, rule, taken, syntax);
      && (forall x :: x in issues ==>
            || (x == Unique && taken.Some? && s in taken.value)
            || (x == MaxLength(rule.maxLength) && |s| > rule.maxLength)
            || (x == NullCharacters && '\0' in s)
            || (x == Invalid && syntax.Some? && !syntax.value(s)))
      && (forall i, j :: 0 <= i < j < |issues| ==> issues[i] != issues[j])
  {
  }

  /** A DRF `CharField` (an `EmailField` when `syntax` is given) reading the member `raw`
      (None when the member is missing). A missing member is an error only for a required
      field; `null` is an error (the email field handles `null` itself); a value that is
      blank after trimming is `''` where blank is allowed and an error elsewhere, and skips
      the validators; any other value is trimmed and validated. `true`, `false`, arrays and
      objects are not valid strings. */
  function CharField(raw: Option<JsonValue>, rule: CharRule, taken: Option<set<string>>,
                     syntax: Option<string -> bool>): (r: Check<string>)
    ensures r.Absent? <==> raw.None? && !rule.required
    ensures raw.None? && rule.required ==> r == Rejected([Required])
    ensures raw == Some(JNull) ==> r == Rejected([Null])
    ensures raw == Some(JOther) ==> r == Rejected([Invalid])
    ensures r.Rejected? ==> r.issues != []
    ensures r.Accepted? ==> raw.Some? && Textual(raw.value) && r.value == Strip(TextOf(raw.value))
    ensures r.Accepted? ==> |r.value| <= rule.maxLength && '\0' !in r.value
    ensures r.Accepted? && r.value == [] ==> rule.allowBlank
    ensures r.Accepted? && r.value != [] ==>
      (taken.Some? ==> r.value !in taken.value) && (syntax.Some? ==> syntax.value(r.value))
    ensures raw.Some? && Textual(raw.value) ==>
      var s := Strip(TextOf(raw.value));
      && (s == [] ==> r == (if rule.allowBlank then Accepted([]) else Rejected([Blank])))
      && (s != [] && RunValidators(s, rule, taken, syntax) == [] ==> r == Accepted(s))
      && (s != [] && RunValidators(s, rule, taken, syntax) != [] ==>
            r == Rejected(RunValidators(s, rule, taken, syntax)))
  {
    match raw
    case None => if rule.required then Rejected([Required]) else Absent
    case Some(JNull) => Rejected([Null])
    case Some(JOther) => Rejected([Invalid])
    case Some(v) =>
      var s := Strip(TextOf(v));
      if s == [] then
        if rule.allowBlank then Accepted([]) else Rejected([Blank])
      else
        var issues := RunValidators(s, rule, taken, syntax);
        if issues == [] then Accepted(s) else Rejected(issues)
  }

  /** The `source` field, a `ChoiceField` over the three choices: required, not nullable,
      and the text must be exactly one of the choices (no trimming). */
  function ChoiceField(raw: Option<JsonValue>): (r: Check<Source>)
    ensures !r.Absent?
    ensures r.Accepted? <==>
      raw.Some? && Textual(raw.value) && ParseSource(TextOf(raw.value)).Some?
    ensures r.Accepted? ==> SourceText(r.value) == TextOf(raw.value)
    ensures r.Rejected? ==> |r.issues| == 1
    ensures raw.None? ==> r == Rejected([Required])
    ensures raw == Some(JNull) ==> r == Rejected([Null])
    ensures raw.Some? && raw.value != JNull && !r.Accepted? ==> r == Rejected([InvalidChoice])
  {
    match raw
    case None => Rejected([Required])
    case Some(JNull) => Rejected([Null])
    case Some(JOther) => Rejected([InvalidChoice])
    case Some(v) =>
      var choice := ParseSource(TextOf(v));
      if choice.Some? then Accepted(choice.value) else Rejected([InvalidChoice])
  }

  function Member(m: map<string, JsonValue>, name: string): Option<JsonValue> {
    if name in m then Some(m[name]) else None
  }

  /** The unique validators' view of the stored rows: None for the bulk item serializer,
      whose `extra_kwargs` drop them; otherwise the emails and phones already stored. */
  function EmailsTaken(unique: Option<seq<Professional>>): Option<set<string>> {
    match unique
    case None => None
    case Some(rows) =>
      Some(set i | 0 <= i < |rows| && rows[i].profile.email.Some? :: rows[i].profile.email.value)
  }

  function PhonesTaken(unique: Option<seq<Professional>>): Option<set<string>> {
    match unique
    case None => None
    case Some(rows) => Some(set i | 0 <= i < |rows| :: rows[i].profile.phone)
  }

  /** The email field: optional, `null` is accepted as NULL (validators skipped), `''` is
      accepted as `''`, anything else must pass the length and syntax rules (and, when the
      serializer has one, the unique validator). */
  function EmailCheck(m: map<string, JsonValue>, unique: Option<seq<Professional>>,
                      isEmail: string -> bool): (r: Check<Option<string>>)
  {
    var raw := Member(m, "email");
    if raw == Some(JNull) then Accepted(None)
    else
      match CharField(raw, EmailRule, EmailsTaken(unique), Some(isEmail))
      case Absent => Absent
      case Accepted(s) => Accepted(Some(s))
      case Rejected(issues) => Rejected(issues)
  }

  /** The email field: missing is no error; `null` is NULL; whitespace-only text is `''`;
      `true`, `false`, arrays and objects are `invalid`; any other text is trimmed and
      accepted exactly when it is within the length limit, free of NUL, well-formed and (with
      a unique validator) not stored yet, and otherwise rejected with the failing
      validators' issues. */
  lemma EmailRules(m: map<string, JsonValue>, unique: Option<seq<Professional>>, isEmail: string -> bool)
    ensures var r := EmailCheck(m, unique, isEmail);
      && (r.Absent? <==> "email" !in m)
      && ("email" in m && m["email"] == JNull ==> r == Accepted(None))
      && ("email" in m && m["email"] == JOther ==> r == Rejected([Invalid]))
      && ("email" in m && Textual(m["email"]) && AllSpace(TextOf(m["email"])) ==> r == Accepted(Some([])))
      && ("email" in m && Textual(m["email"]) && !AllSpace(TextOf(m["email"])) ==>
            var e := Strip(TextOf(m["email"]));
            && (r == Accepted(Some(e)) <==>
                  |e| <= EmailMaxLength && '\0' !in e && isEmail(e) &&
                  (unique.Some? ==> e !in EmailsTaken(unique).value))
            && (r != Accepted(Some(e)) ==> r == Rejected(RunValidators(e, EmailRule, EmailsTaken(unique), Some(isEmail)))))
      && (r.Accepted? && r.value.Some? && r.value.value != [] ==>
            var e := r.value.value;
            && "email" in m && Textual(m["email"]) && e == Strip(TextOf(m["email"]))
            && |e| <= EmailMaxLength && '\0' !in e && isEmail(e)
            && (unique.Some? ==> e !in EmailsTaken(unique).value))
      && (r.Rejected? ==> r.issues != [])
  {
    assert "email" in m ==> Member(m, "email") == Some(m["email"]);
  }

  /** The six field checks of an object `m`. */
  function NameCheck(m: map<string, JsonValue>): Check<string> {
    CharField(Member(m, "full_name"), FullNameRule, None, None)
  }

  function PhoneCheck(m: map<string, JsonValue>, unique: Option<seq<Professional>>): Check<string> {
    CharField(Member(m, "phone"), PhoneRule, PhonesTaken(unique), None)
  }

  function CompanyNameCheck(m: map<string, JsonValue>): Check<string> {
    CharField(Member(m, "company_name"), CompanyNameRule, None, None)
  }

  function JobTitleCheck(m: map<string, JsonValue>): Check<string> {
    CharField(Member(m, "job_title"), JobTitleRule, None, None)
  }

  function SourceCheck(m: map<string, JsonValue>): Check<Source> {
    ChoiceField(Member(m, "source"))
  }

  /** The error map of an object from the issues of its six fields: every failing field,
      keyed by its name, with all its issues. */
  function ErrorsOf(name: seq<Issue>, email: seq<Issue>, phone: seq<Issue>,
                    company: seq<Issue>, job: seq<Issue>, source: seq<Issue>): (e: ErrorMap)
    ensures FieldKey(FullName) in e <==> name != []
    ensures FieldKey(Email) in e <==> email != []
    ensures FieldKey(Phone) in e <==> phone != []
    ensures FieldKey(CompanyName) in e <==> company != []
    ensures FieldKey(JobTitle) in e <==> job != []
    ensures FieldKey(SourceField) in e <==> source != []
    ensures FieldKey(FullName) in e ==> e[FieldKey(FullName)] == name
    ensures FieldKey(Email) in e ==> e[FieldKey(Email)] == email
    ensures FieldKey(Phone) in e ==> e[FieldKey(Phone)] == phone
    ensures FieldKey(CompanyName) in e ==> e[FieldKey(CompanyName)] == company
    ensures FieldKey(JobTitle) in e ==> e[FieldKey(JobTitle)] == job
    ensures FieldKey(SourceField) in e ==> e[FieldKey(SourceField)] == source
    ensures NonFieldErrors !in e
    ensures forall k :: k in e ==> e[k] != []
  {
    var e: ErrorMap := map[];
    var e := if name == [] then e else e[FieldKey(FullName) := name];
    var e := if email == [] then e else e[FieldKey(Email) := email];
    var e := if phone == [] then e else e[FieldKey(Phone) := phone];
    var e := if company == [] then e else e[FieldKey(CompanyName) := company];
    var e := if job == [] then e else e[FieldKey(JobTitle) := job];
    if source == [] then e else e[FieldKey(SourceField) := source]
  }

  /** The error map of the object `m`. */
  function FieldErrors(m: map<string, JsonValue>, unique: Option<seq<Professional>>,
                       isEmail: string -> bool): ErrorMap {
    ErrorsOf(IssuesOf(NameCheck(m)), IssuesOf(EmailCheck(m, unique, isEmail)),
             IssuesOf(PhoneCheck(m, unique)), IssuesOf(CompanyNameCheck(m)),
             IssuesOf(JobTitleCheck(m)), IssuesOf(SourceCheck(m)))
  }

  /** What a validated item guarantees about its values. */
  predicate ValidatedOk(v: ValidatedItem, isEmail: string -> bool) {
    && 0 < |v.fullName| <= FullNameMaxLength && '\0' !in v.fullName
    && 0 < |v.phone| <= PhoneMaxLength && '\0' !in v.phone
    && (v.email.Given? && v.email.value.Some? ==>
          var e := v.email.value.value;
          |e| <= EmailMaxLength && '\0' !in e && (e != [] ==> isEmail(e)))
    && (v.companyName.Given? ==>
          |v.companyName.value| <= CompanyNameMaxLength && '\0' !in v.companyName.value)
    && (v.jobTitle.Given? ==> |v.jobTitle.value| <= JobTitleMaxLength && '\0' !in v.jobTitle.value)
  }

  /** A validated email or phone that a row of `rows` already holds. */
  predicate TakenIn(rows: seq<Professional>, v: ValidatedItem) {
    exists i :: 0 <= i < |rows| &&
      (rows[i].profile.phone == v.phone ||
       (v.email.Given? && v.email.value.Some? && v.email.value.value != [] &&
        rows[i].profile.email == v.email.value))
  }

  /** Every field of the object `m` passes. */
  predicate AllFieldsPass(m: map<string, JsonValue>, unique: Option<seq<Professional>>,
                          isEmail: string -> bool) {
    && IssuesOf(NameCheck(m)) == []
    && IssuesOf(EmailCheck(m, unique, isEmail)) == []
    && IssuesOf(PhoneCheck(m, unique)) == []
    && IssuesOf(CompanyNameCheck(m)) == []
    && IssuesOf(JobTitleCheck(m)) == []
    && IssuesOf(SourceCheck(m)) == []
  }

  /** The value of a required text field that passes. */
  function RequiredText(raw: Option<JsonValue>, rule: CharRule, taken: Option<set<string>>): (s: string)
    requires rule.required && !rule.allowBlank
    requires IssuesOf(CharField(raw, rule, taken, None)) == []
    ensures 0 < |s| <= rule.maxLength && '\0' !in s
    ensures taken.Some? ==> s !in taken.value
  {
    CharField(raw, rule, taken, None).value
  }

  /** The value of an optional text field that passes, if the object has it. */
  function OptionalText(raw: Option<JsonValue>, rule: CharRule): (p: Provided<string>)
    requires IssuesOf(CharField(raw, rule, None, None)) == []
    ensures p.Given? ==> |p.value| <= rule.maxLength && '\0' !in p.value
    ensures p.Omitted? <==> raw.None?
  {
    var c := CharField(raw, rule, None, None);
    if c.Accepted? then Given(c.value) else Omitted
  }

  /** The value of an email field that passes, if the object has one. */
  function EmailOf(m: map<string, JsonValue>, unique: Option<seq<Professional>>,
                   isEmail: string -> bool): (p: Provided<Option<string>>)
    requires IssuesOf(EmailCheck(m, unique, isEmail)) == []
    ensures p.Omitted? <==> "email" !in m
    ensures p.Given? && p.value.Some? ==>
      var e := p.value.value;
      && |e| <= EmailMaxLength && '\0' !in e
      && (e != [] ==> isEmail(e) && (unique.Some? ==> e !in EmailsTaken(unique).value))
  {
    var c := EmailCheck(m, unique, isEmail);
    if c.Accepted? then Given(c.value) else Omitted
  }

  /** The value of a `source` field that passes. */
  function SourceOf(m: map<string, JsonValue>): (s: Source)
    requires IssuesOf(ChoiceField(Member(m, "source"))) == []
  {
    ChoiceField(Member(m, "source")).value
  }

  /** A row holding a phone or a non-empty email is found by the unique validators. */
  lemma TakenInSets(rows: seq<Professional>, v: ValidatedItem)
    requires TakenIn(rows, v)
    ensures v.phone in PhonesTaken(Some(rows)).value ||
      (v.email.Given? && v.email.value.Some? && v.email.value.value != [] &&
       v.email.value.value in EmailsTaken(Some(rows)).value)
  {
    var i :| 0 <= i < |rows| &&
      (rows[i].profile.phone == v.phone ||
       (v.email.Given? && v.email.value.Some? && v.email.value.value != [] &&
        rows[i].profile.email == v.email.value));
    if rows[i].profile.phone != v.phone {
      assert rows[i].profile.email.value == v.email.value.value;
    }
  }

  /** The validated data of an object whose fields all pass: the required fields with their
      trimmed values, and the optional ones only where the object has them. */
  function Assemble(m: map<string, JsonValue>, unique: Option<seq<Professional>>,
                    isEmail: string -> bool): (v: ValidatedItem)
    requires AllFieldsPass(m, unique, isEmail)
    ensures ValidatedOk(v, isEmail)
    ensures unique.Some? ==> !TakenIn(unique.value, v)
  {
    var v := ValidatedItem(
      RequiredText(Member(m, "full_name"), FullNameRule, None),
      EmailOf(m, unique, isEmail),
      RequiredText(Member(m, "phone"), PhoneRule, PhonesTaken(unique)),
      OptionalText(Member(m, "company_name"), CompanyNameRule),
      OptionalText(Member(m, "job_title"), JobTitleRule),
      SourceOf(m));
    assert unique.Some? ==> !TakenIn(unique.value, v) by {
      if unique.Some? && TakenIn(unique.value, v) {
        TakenInSets(unique.value, v);
      }
    }
    v
  }

  /** `serializer.is_valid()` followed by `validated_data` or `errors`. `unique` is None for the
      bulk item serializer and the stored rows for the single-create serializer. */
  function ValidateItem(item: RawItem, unique: Option<seq<Professional>>,
                        isEmail: string -> bool): (r: Result<ValidatedItem, ErrorMap>)
    ensures item.NullItem? ==> r == Failure(map[NonFieldErrors := [Null]])
    ensures item.OtherItem? ==> r == Failure(map[NonFieldErrors := [Invalid]])
    ensures item.ObjectItem? ==> (r.Success? <==> AllFieldsPass(item.members, unique, isEmail))
    ensures item.ObjectItem? && r.Failure? ==> r.error == FieldErrors(item.members, unique, isEmail)
    ensures r.Failure? ==> r.error != map[] && forall k :: k in r.error ==> r.error[k] != []
    ensures r.Success? ==> ValidatedOk(r.value, isEmail)
    ensures r.Success? && unique.Some? ==> !TakenIn(unique.value, r.value)
  {
    match item
    case NullItem =>
      assert NonFieldErrors in map[NonFieldErrors := [Null]];
      Failure(map[NonFieldErrors := [Null]])
    case OtherItem =>
      assert NonFieldErrors in map[NonFieldErrors := [Invalid]];
      Failure(map[NonFieldErrors := [Invalid]])
    case ObjectItem(m) =>
      if AllFieldsPass(m, unique, isEmail) then
        Success(Assemble(m, unique, isEmail))
      else
        Failure(FieldErrors(m, unique, isEmail))
  }

  /** `validated_data` holds the item's own values: the trimmed text of each text field it
      has (NULL for an email given as `null`), the stored text of its `source`, and nothing
      for an optional field it left out. */
  lemma ValidatedData(m: map<string, JsonValue>, unique: Option<seq<Professional>>, isEmail: string -> bool)
    ensures var r := ValidateItem(ObjectItem(m), unique, isEmail);
      r.Success? ==>
        var v := r.value;
        && "full_name" in m && Textual(m["full_name"]) && v.fullName == Strip(TextOf(m["full_name"]))
        && "phone" in m && Textual(m["phone"]) && v.phone == Strip(TextOf(m["phone"]))
        && "source" in m && Textual(m["source"]) && SourceText(v.source) == TextOf(m["source"])
        && ("email" !in m ==> v.email == Omitted)
        && ("email" in m && m["email"] == JNull ==> v.email == Given(None))
        && ("email" in m && m["email"] != JNull ==>
              Textual(m["email"]) && v.email == Given(Some(Strip(TextOf(m["email"])))))
        && ("company_name" !in m ==> v.companyName == Omitted)
        && ("company_name" in m ==>
              Textual(m["company_name"]) && v.companyName == Given(Strip(TextOf(m["company_name"]))))
        && ("job_title" !in m ==> v.jobTitle == Omitted)
        && ("job_title" in m ==>
              Textual(m["job_title"]) && v.jobTitle == Given(Strip(TextOf(m["job_title"]))))
  {
    if AllFieldsPass(m, unique, isEmail) {
      var v := Assemble(m, unique, isEmail);
      assert ValidateItem(ObjectItem(m), unique, isEmail).value == v;
      forall f | f in m ensures Member(m, f) == Some(m[f]) {
      }
    }
  }

  /** `BulkProfessionalItemSerializer(data=item).is_valid()`. */
  function ValidateBulkItem(item: RawItem, isEmail: string -> bool): Result<ValidatedItem, ErrorMap> {
    ValidateItem(item, None, isEmail)
  }

  /** `ProfessionalSerializer(data=item).is_valid()` against the stored rows. */
  function ValidateNew(item: RawItem, rows: seq<Professional>,
                       isEmail: string -> bool): Result<ValidatedItem, ErrorMap> {
    ValidateItem(item, Some(rows), isEmail)
  }
}
