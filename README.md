# Professional bulk upsert, modelled in Dafny

A model of the write path of the `professionals` app of professional-signup-hub. The app is a
Django REST Framework service that collects sign-ups of "professionals" arriving from three
intake channels (`direct`, `partner`, `internal`) into one table. The core is
`ProfessionalBulkUpsertView.post`. It takes a JSON array of candidate records and handles each
one independently, in order:

1. It validates the record with `BulkProfessionalItemSerializer`.
2. It picks the lookup key: the email if there is one, otherwise the phone.
3. It looks up an existing row by that key. An email that matches nothing is not retried by phone.
4. It updates the matched row with the fields given, or creates a new row.

A database `IntegrityError` turns into an error entry for that item. Nothing is rolled back,
and the answer lists the `created`, `updated` and `errors` entries by item index. The model
also covers the single create of `ProfessionalListCreateView` and its `ProfessionalSerializer`,
whose unique validators the bulk serializer drops, and the model's default ordering.

Files (modules):

- `common.dfy` (`Common`): `Option` and `Result`.
- `models.dfy` (`Models`): the `Professional` columns and the `Source` choices. Also the column
  rules, the unique constraints on `email` and `phone`, and newest-first ordering.
- `serializers.dfy` (`Serializers`): what a `ModelSerializer` on `Professional` does with one
  JSON item. It trims text, applies the required, blank and null rules and runs the
  validators (unique, max length, NUL character, email syntax). It collects every failing
  field into an error map, or builds `validated_data`.
- `store.dfy` (`Store`): the table as a value (`Db`), with `INSERT`/`UPDATE` checked against
  the unique constraints, `filter(...).first()` and `all()`. It is also a mutable `Table`
  class with `Create` and `Save`.
- `views.dfy` (`Views`): one bulk item as a function (`ProcessItem`) and the batch loop
  (`Run`), plus the two endpoints as methods on the `Table` (`BulkUpsert`, `CreateOne`).
  Each method is proved equal to its function.
- `batch_properties.dfy`, `upsert_properties.dfy`, `serializer_properties.dfy`: lemmas about
  the whole batch, about one item, and about the serializers.

Modelling choices:

- Django's `EmailValidator` is the parameter `isEmail: string -> bool`. The model fixes only
  where it is applied: to a non-blank, trimmed email, after the length and NUL checks.
- A JSON number given for a text field is modelled by its `str()` text (`JNumber(text)`).
  `true`, `false`, arrays and objects are `JOther`.
- `created_at` comes from a counter (`Db.clock`) that every insert moves on. So rows are
  ordered by insertion, as with an increasing wall clock.
- The `IntegrityError` text is a single `IntegrityError` issue.

Behaviour of the code worth knowing, which the model follows:

- The bulk phone check. The view's docstring (views.py:21-22) describes phone as the fallback
  lookup key, as if an item could come without one. But `BulkProfessionalItemSerializer`
  keeps `phone` required, as the model column is required. So a missing phone is a
  `phone: required` error (`RequiredFieldsEnforced`), as `test_no_email_no_phone_error` (tests.py:234-243) expects. The
  "Either email or phone is required." branch (views.py:52-58) is never reached
  (`IdentityAlwaysPresent`).
- The email default. A missing email is stored as NULL; only company and job title default to
  `''` (`NewProfile`). `test_create_only_required_fields` (tests.py:116-127) expects exactly this.
- The blank email. A blank email skips the validators, including the unique validator of the
  single-create serializer, and is stored as `''`. Two rows with email `''` therefore violate
  the unique constraint. This holds on database backends that store `''` as a value rather
  than as NULL: Django's `interprets_empty_strings_as_nulls` is false, as on SQLite and
  PostgreSQL. A second single create with email `''` is then an unhandled `IntegrityError`, a
  500 answer, and it is the only 500 a validated single create can give (`Views.CreateSpec`,
  `BlankEmailOnCreate`). In the bulk path the same case is an error entry
  (`BlankEmailCollides`).

## Model

| member | source | states |
|---|---|---|
| Models.ParseSource | backend/professionals/models.py:5-8 | only the three stored texts `direct`, `partner`, `internal` are choices (iff), with no trimming or case folding, and the choice's text is the input |
| Models.SourceRoundTrip | backend/professionals/models.py:5-8 | reading back the stored text of a choice gives the same choice |
| Serializers.Strip | backend/professionals/models.py:10-14 | the trim of DRF's `CharField` default `trim_whitespace=True`, on the text fields `fields = '__all__'` generates from these columns: the result is empty iff the input is all whitespace, starts and ends on non-whitespace, is no longer than the input, and is unchanged when already trimmed |
| Serializers.StripIsInfix | backend/professionals/models.py:10-14 | under `trim_whitespace=True`, the trimmed text is the contiguous part of the input between a leading and a trailing run of whitespace |
| Serializers.RunValidators | backend/professionals/models.py:10-15 | no issue iff the value is not taken (when a unique validator is present), within `max_length`, free of NUL and passes the email syntax (when applicable); each failing validator adds its issue |
| Serializers.OnlyFailingValidators | backend/professionals/models.py:10-15 | conversely, every issue reported comes from a validator that fails on the value, and no issue is reported twice |
| Serializers.CharField | backend/professionals/models.py:10-14 | missing is `required` only for a required column; `null`, booleans, arrays and objects are errors (a JSON number is read as its text); a blank value is `''` where `blank=True` and `blank` elsewhere, skipping validators; otherwise the trimmed text, accepted iff every validator passes |
| Serializers.ChoiceField | backend/professionals/models.py:15 | `source` is required, not nullable, and accepted iff its text is exactly one of the choices; any other given value (unknown text, a boolean, an array, an object) is rejected with `invalid_choice` alone |
| Serializers.EmailRules | backend/professionals/models.py:11 | the email field is absent iff the item has no email; `null` gives NULL; whitespace-only text gives `''`; booleans, arrays and objects are `invalid`; other text is accepted as its trimmed value iff within 254 characters, free of NUL, well-formed and (single create) not stored, and otherwise rejected with exactly the failing validators' issues |
| Serializers.ErrorsOf | backend/professionals/serializers.py:15-26 | the error map has a key for exactly the failing fields, each holding all that field's issues, and no non-field key |
| Serializers.Assemble | backend/professionals/serializers.py:15-26 | `validated_data` satisfies the column rules, and with unique validators holds no stored phone or non-blank email |
| Serializers.ValidateItem | backend/professionals/serializers.py:6-26 | a `null` or non-object item is a non-field error; an object is valid iff all six fields pass; otherwise the error map lists every failing field; valid data meets the column rules and, for the single-create serializer, holds no stored phone and no stored non-blank email |
| Serializers.ValidatedData | backend/professionals/serializers.py:6-26 | the validated data of an object holds its own values: the trimmed name and phone, the given `source`, and for each optional field the trimmed text (NULL for a `null` email) where the object has it and nothing where it does not |
| Store.Insert | backend/professionals/models.py:11-16 | an insert succeeds iff the profile collides with no row; it then appends a row with the next id and the current clock; a failure changes nothing; the table invariant is kept |
| Store.Update | backend/professionals/models.py:11-12 | a save succeeds iff the new profile collides with no other row; it replaces only that row's profile, keeping id and `created_at`; a failure changes nothing; the invariant is kept |
| Store.FirstWhere | backend/professionals/views.py:60-65 | the position found holds the value and no later row does; None iff no row holds it |
| Store.AtMostOneHolder | backend/professionals/models.py:11-12 | under the unique constraints at most one row holds a given email or phone |
| Store.ReverseSameRows | backend/professionals/models.py:18-19 | listing newest first reorders the rows without adding or losing any |
| Store.ListAll | backend/professionals/models.py:18-19 | `all()` returns every row exactly once (same multiset), ordered by `created_at` descending |
| Store.Table.constructor | backend/professionals/models.py:4-16 | a fresh table is empty and valid |
| Store.Table.Create | backend/professionals/views.py:78 | `objects.create` changes the table exactly as `Insert` |
| Store.Table.Save | backend/professionals/views.py:70-72 | `existing.save()` changes the table exactly as `Update` |
| Views.KeyOf | backend/professionals/views.py:46-58 | the key is the email iff one is given that is neither NULL nor `''`; otherwise the phone when non-empty; `Missing` iff neither |
| Views.Lookup | backend/professionals/views.py:60-65 | the row found matches the key, None iff no row matches, and under the unique constraints the row found is the only one |
| Views.ValidatedValues | backend/professionals/views.py:70-71 | `validated_data` always holds the required fields with the validated name, phone and source, and holds each optional field, with its validated value, iff the item gave it |
| Views.ApplyFields | backend/professionals/views.py:69-72 | every column in `validated_data` takes its validated value, and every other column keeps its stored value |
| Views.NewProfile | backend/professionals/views.py:78 | a new row takes the validated values, with NULL email and `''` company and job title where they were left out |
| Views.ProcessItem | backend/professionals/views.py:35-88 | an invalid item is an error entry carrying the serializer's errors and a table left as it was; a valid one is written as `ProcessValidated` says; every failure leaves the table unchanged; the invariant is kept |
| Views.ProcessValidated | backend/professionals/views.py:46-88 | a missing key is the identity error; with no match the item is created iff the new row fits the unique constraints, appended with the next id and the clock and moving both counters on by one, and is otherwise an `IntegrityError`; with a match it replaces exactly that row with the merged profile, keeping id, `created_at` and both counters, iff the merge fits, and is otherwise an `IntegrityError`; every failure leaves the table unchanged |
| Views.Run | backend/professionals/views.py:31-88 | processing a batch in order keeps the table invariant |
| Views.Step | backend/professionals/views.py:35-88 | one loop iteration changes the table as `ProcessItem` and appends its outcome to the right bucket |
| Views.Write | backend/professionals/views.py:60-88 | steps 3 and 4 on the table are exactly `ProcessValidated` |
| Views.BulkUpsert | backend/professionals/views.py:24-94 | a non-list body is a 400 that leaves the table unchanged; a list is a 200 whose buckets and resulting table are those of processing the items in order; an empty list gives three empty buckets and an unchanged table |
| Views.CreateValidated | backend/professionals/views.py:11-17 | an insert of validated data answers 201 with the new row (next id, current clock, appended) iff it fits the unique constraints, and 500 with the table unchanged otherwise; for data that passed the unique validators, 500 iff its email is `''` and a row already stores `''` |
| Views.InsertFailsOnBlankEmailOnly | backend/professionals/models.py:11-12 | data holding no stored phone or non-blank email collides with a row iff its email is `''` and a row stores `''` |
| Views.CreateSpec | backend/professionals/views.py:11-17 | a single create answers 400 with the serializer's errors (table unchanged) when validation fails, and otherwise inserts as `CreateValidated`; it answers 500 exactly when the validated email is `''` and a row already stores `''` |
| Views.CreateOne | backend/professionals/views.py:11-17 | the single create on the table behaves exactly as `CreateSpec` |
| BatchProperties.RunPartition | backend/professionals/views.py:31-94 | every item index of the batch appears exactly once across `created`, `updated` and `errors`, each list in increasing index order, the sizes adding up to the batch length |
| BatchProperties.RunExtends | backend/professionals/views.py:35-88 | later items only append: the buckets after any prefix of the batch are prefixes of the final buckets |
| BatchProperties.ItemOutcome | backend/professionals/views.py:35-88 | the item at index k is answered by processing it against the table the items before it left, and its entry (with its data and errors, for a failure) is in the matching bucket |
| BatchProperties.RunGrowth | backend/professionals/views.py:67-88 | rows are never removed or replaced: stored rows keep position, id and `created_at`, each assigned once, and the table grows by exactly the number of created entries |
| BatchProperties.RunKeepsRowsOk | backend/professionals/views.py:35-88 | whatever the batch, every row written satisfies the column rules |
| UpsertProperties.IdentityAlwaysPresent | backend/professionals/views.py:52-58 | a validated item always has a lookup key, so the "Either email or phone is required." error is never produced |
| UpsertProperties.MatchedRowIsUpdated | backend/professionals/views.py:60-76 | an item whose key some row holds never creates a row; it is an update of that row iff the merged profile still fits the unique constraints |
| UpsertProperties.EmailMissDoesNotFallBack | backend/professionals/views.py:62-65 | an email no row holds is not retried by phone: with a stored phone the insert fails as an `IntegrityError` and the table is unchanged |
| UpsertProperties.KeyAndPhoneOnDifferentRows | backend/professionals/views.py:69-88 | when the key finds one row and the phone belongs to another, the update fails as an `IntegrityError` and the table is unchanged |
| UpsertProperties.BlankEmailCollides | backend/professionals/views.py:49-65 | an email `''` is no lookup key but is stored as `''`, so inserting it next to a stored `''` fails on the unique constraint |
| UpsertProperties.WrittenRowFound | backend/professionals/views.py:60-82 | after a write, the lookup by the same key finds exactly the row written |
| UpsertProperties.ResubmitValidated | backend/professionals/views.py:60-82 | writing the same validated data again is an update that returns the same record and changes nothing |
| UpsertProperties.Resubmit | backend/professionals/views.py:35-88 | resubmitting an item that was created or updated answers "updated" with the same record and leaves the table as it is |
| UpsertProperties.LaterItemSeesEarlierWrite | backend/professionals/views.py:35-82 | a later item with the same key as an earlier successful one updates that row (same id) or fails, and never creates a second row |
| UpsertProperties.OmittedFieldsKept | backend/professionals/views.py:69-76 | an update writes the fields the item gives, keeps the columns it leaves out and keeps id and `created_at` |
| UpsertProperties.SameEmailTwice | backend/professionals/views.py:35-94 | two items with the same email and phone on an empty table: index 0 is created, index 1 updates that same row (id 1), no errors, and the single stored row holds the second name |
| SerializerProperties.UniqueOnlyNarrows | backend/professionals/serializers.py:23-26 | a unique validator only removes non-blank values already taken; an accepted value is the same with or without it |
| SerializerProperties.TakenInIff | backend/professionals/models.py:11-12 | a stored phone or non-blank email is exactly what the unique validators find |
| SerializerProperties.SingleIsBulkPlusUnique | backend/professionals/serializers.py:6-26 | `ProfessionalSerializer` accepts an item iff `BulkProfessionalItemSerializer` accepts it and neither its phone nor its non-blank email is stored; both then give the same data |
| SerializerProperties.DuplicateEmailRejected | backend/professionals/serializers.py:6-12 | a single create whose trimmed non-blank email a row already stores is a 400 with `unique` under `email`, whatever the other fields hold, storing nothing |
| SerializerProperties.DuplicatePhoneRejected | backend/professionals/serializers.py:6-12 | a single create whose trimmed phone a row already stores is a 400 with `unique` under `phone`, whatever the other fields hold, storing nothing |
| SerializerProperties.BlankEmailOnCreate | backend/professionals/views.py:11-17 | a second single create with email `''` passes validation but fails in the database, a 500 that stores nothing |
| SerializerProperties.InvalidEmailRejected | backend/professionals/models.py:11 | a non-blank email failing the syntax check is rejected with `invalid` under `email`, by both serializers |
| SerializerProperties.EmailMayBeLeftOut | backend/professionals/models.py:11 | an email left out, `null` or blank is no error and gives no email, NULL or `''` respectively |
| SerializerProperties.RequiredFieldsEnforced | backend/professionals/models.py:10-15 | leaving out `full_name`, `phone` or `source` is a `required` error under that field, in both serializers |
| SerializerProperties.BlankRequiredRejected | backend/professionals/models.py:10-12 | a name or phone that is blank after trimming is a `blank` error under that field |
| SerializerProperties.LongNameRejected | backend/professionals/models.py:10 | a trimmed name over 255 characters is a `max_length` error under `full_name` |
| SerializerProperties.LongPhoneRejected | backend/professionals/models.py:12 | a trimmed phone over 20 characters is a `max_length` error under `phone` |
| SerializerProperties.SourceChoiceEnforced | backend/professionals/models.py:15 | a `source` text other than the three choices is `invalid_choice`; an accepted source stores exactly the given text |

## Left out

- The `GET` list endpoint's `?source=` filter (backend/professionals/filters.py) and the URL routing: `django-filter` and the URL configuration are not part of this model. Only the default ordering of `all()` is modelled.
- The response serialization (`ProfessionalSerializer(...).data`): entries carry the stored row itself, not its JSON rendering.
- HTTP parsing: the body arrives already parsed as `ArrayBody` or `OtherBody`. A non-list body is one case, whatever its JSON type.
- The text of `str(e)` for an `IntegrityError`: it is the single issue `IntegrityError`.
- Transactions and concurrent requests: each request runs alone against the table, and every write is atomic.
- Real timestamps: `created_at` is a counter, so two rows never share a time. An `id` or clock value used up by a failed insert is not modelled.
- Django's `EmailValidator` regular expressions: the email syntax is the parameter `isEmail`.
- The prohibit-surrogate-characters validator of DRF's `CharField`: strings are sequences of Dafny characters, which cannot hold lone surrogates.
- JSON numbers given for text fields: modelled only by their `str()` text, with no parsing of numeric formats.
- backend/professionals/tests.py is used only as a reading of intended behaviour. `SameEmailTwice` states its same-batch duplicate case as a lemma over any two names, one email and one phone that trimming leaves unchanged.
- `Professional.__str__` (models.py:21-22) plays no part in the write path.
