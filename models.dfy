/** The `Professional` table: its columns, its `Source` choices, its column rules,
    its two unique constraints and its default ordering (backend/professionals/models.py). */
module Models {
  import opened Common

  /** The three intake channels, `Professional.Source`. */
  datatype Source = Direct | Partner | Internal

  /** The text stored in the `source` column for a choice. */
  function SourceText(s: Source): (t: string)
    ensures |t| <= SourceMaxLength
  {
    match s
    case Direct => "direct"
    case Partner => "partner"
    case Internal => "internal"
  }

  /** The choice whose stored text is exactly `t` (no trimming, no case folding), if any. */
  function ParseSource(t: string): (r: Option<Source>)
    ensures r.Some? <==> t == "direct" || t == "partner" || t == "internal"
    ensures r.Some? ==> SourceText(r.value) == t
  {
    if t == "direct" then Some(Direct)
    else if t == "partner" then Some(Partner)
    else if t == "internal" then Some(Internal)
    else None
  }

  /** Reading back the stored text of a choice gives the choice. */
  lemma SourceRoundTrip(s: Source)
    ensures ParseSource(SourceText(s)) == Some(s)
  {
  }

  /** `max_length` of the columns; the email limit is Django's default for an `EmailField`. */
  const FullNameMaxLength: nat := 255
  const EmailMaxLength: nat := 254
  const PhoneMaxLength: nat := 20
  const CompanyNameMaxLength: nat := 255
  const JobTitleMaxLength: nat := 255
  const SourceMaxLength: nat := 10

  /** The descriptive columns of a row: everything a request may write. */
  datatype Profile = Profile(
    fullName: string,
    email: Option<string>,   // None is SQL NULL
    phone: string,
    companyName: string,
    jobTitle: string,
    source: Source)

  /** A stored row: `id` and `created_at` are assigned by the store when the row is inserted. */
  datatype Professional = Professional(id: nat, profile: Profile, createdAt: nat)

  /** The column rules a row written through the API satisfies: a non-empty name of at most
      255 characters, a non-empty phone of at most 20, bounded optional columns and no NUL. */
  predicate ProfileOk(p: Profile) {
    && 0 < |p.fullName| <= FullNameMaxLength
    && (p.email.Some? ==> |p.email.value| <= EmailMaxLength && '\0' !in p.email.value)
    && 0 < |p.phone| <= PhoneMaxLength
    && |p.companyName| <= CompanyNameMaxLength
    && |p.jobTitle| <= JobTitleMaxLength
    && '\0' !in p.fullName && '\0' !in p.phone
    && '\0' !in p.companyName && '\0' !in p.jobTitle
  }

  /** Two rows that the unique constraints forbid side by side: the same phone, or the
      same non-NULL email. NULL never collides; the empty string is a value like any other. */
  predicate Collide(a: Profile, b: Profile) {
    a.phone == b.phone || (a.email.Some? && a.email == b.email)
  }

  /** `unique=True` on `email` (NULLs exempt) and on `phone`. */
  predicate UniqueKeys(rows: seq<Professional>) {
    forall i, j :: 0 <= i < j < |rows| ==> !Collide(rows[i].profile, rows[j].profile)
  }

  /** `Meta.ordering = ['-created_at']`: newest first. */
  predicate NewestFirst(rows: seq<Professional>) {
    forall i, j :: 0 <= i < j < |rows| ==> rows[i].createdAt >= rows[j].createdAt
  }
}
