/** The relational store behind `Professional.objects`: the rows of the table, the auto-increment
    key and the clock that fills `created_at`, with the two writes the views use (an insert and
    an update of one row, each checked against the unique constraints), the exact-match lookup
    `filter(<column>=value).first()` and the default listing order. */
module Store {
  import opened Common
  import opened Models

  /** The state of the table: its rows in insertion order, the next `id` the auto-increment
      key hands out, and the clock that `auto_now_add` reads (a counter here, moved on by
      every insert). */
  datatype Db = Db(rows: seq<Professional>, nextId: nat, clock: nat)

  /** What the database guarantees of its table: the unique constraints hold, and `id` and
      `created_at` grow with insertion order and stay below the counters. */
  predicate ValidDb(db: Db) {
    && UniqueKeys(db.rows)
    && (forall i, j :: 0 <= i < j < |db.rows| ==>
          db.rows[i].id < db.rows[j].id && db.rows[i].createdAt < db.rows[j].createdAt)
    && (forall i :: 0 <= i < |db.rows| ==> db.rows[i].id < db.nextId && db.rows[i].createdAt < db.clock)
  }

  /** The empty table of a fresh database (`AutoField` keys start at 1). */
  const EmptyDb := Db([], 1, 0)

  /** Writing `p` keeps the unique constraints, leaving out the row at `except` (the row being
      updated, if any). */
  predicate Fits(rows: seq<Professional>, p: Profile, except: Option<nat>) {
    forall j :: 0 <= j < |rows| && Some(j) != except ==> !Collide(p, rows[j].profile)
  }

  /** `INSERT`: a new row with the next `id` and the current clock, or an `IntegrityError`
      (None, table untouched) when `p` shares a phone or a non-NULL email with a row. */
  function Insert(db: Db, p: Profile): (r: (Db, Option<Professional>))
    ensures r.1.Some? <==> Fits(db.rows, p, None)
    ensures r.1.None? ==> r.0 == db
    ensures r.1.Some? ==>
      && r.1.value == Professional(db.nextId, p, db.clock)
      && r.0 == Db(db.rows + [r.1.value], db.nextId + 1, db.clock + 1)
    ensures ValidDb(db) ==> ValidDb(r.0)
  {
    if Fits(db.rows, p, None) then
      var row := Professional(db.nextId, p, db.clock);
      var db' := Db(db.rows + [row], db.nextId + 1, db.clock + 1);
      assert ValidDb(db) ==> ValidDb(db') by {
        if ValidDb(db) {
          forall i, j | 0 <= i < j < |db'.rows| ensures !Collide(db'.rows[i].profile, db'.rows[j].profile) {
            if j == |db.rows| {
              assert !Collide(p, db.rows[i].profile);
            }
          }
        }
      }
      (db', Some(row))
    else
      (db, None)
  }

  /** `UPDATE` of the row at `i` from a saved instance: its descriptive columns become `p`,
      its `id` and `created_at` are written back as they were read; an `IntegrityError`
      (false, table untouched) when `p` collides with another row. */
  function Update(db: Db, i: nat, p: Profile): (r: (Db, bool))
    requires i < |db.rows|
    ensures r.1 <==> Fits(db.rows, p, Some(i))
    ensures !r.1 ==> r.0 == db
    ensures r.1 ==>
      && r.0.nextId == db.nextId && r.0.clock == db.clock && |r.0.rows| == |db.rows|
      && r.0.rows[i] == Professional(db.rows[i].id, p, db.rows[i].createdAt)
      && (forall j :: 0 <= j < |db.rows| && j != i ==> r.0.rows[j] == db.rows[j])
    ensures ValidDb(db) ==> ValidDb(r.0)
  {
    if Fits(db.rows, p, Some(i)) then
      var db' := db.(rows := db.rows[i := Professional(db.rows[i].id, p, db.rows[i].createdAt)]);
      assert ValidDb(db) ==> ValidDb(db') by {
        if ValidDb(db) {
          forall a, b | 0 <= a < b < |db'.rows| ensures !Collide(db'.rows[a].profile, db'.rows[b].profile) {
            if a == i {
              assert !Collide(p, db.rows[b].profile);
            } else if b == i {
              assert !Collide(p, db.rows[a].profile);
            }
          }
        }
      }
      (db', true)
    else
      (db, false)
  }

  /** The two columns the bulk view looks rows up by. */
  datatype Column = EmailColumn | PhoneColumn

  predicate Has(row: Professional, col: Column, value: string) {
    match col
    case EmailColumn => row.profile.email == Some(value)
    case PhoneColumn => row.profile.phone == value
  }

  /** `Professional.objects.filter(<col>=value).first()`: the position of the newest row
      holding `value` (rows are in insertion order, so the newest is the last), if any. */
  function FirstWhere(rows: seq<Professional>, col: Column, value: string): (r: Option<nat>)
    ensures r.Some? ==> r.value < |rows| && Has(rows[r.value], col, value)
    ensures r.Some? ==> forall i :: r.value < i < |rows| ==> !Has(rows[i], col, value)
    ensures r.None? ==> forall i :: 0 <= i < |rows| ==> !Has(rows[i], col, value)
  {
    if rows == [] then None
    else if Has(rows[|rows| - 1], col, value) then Some(|rows| - 1)
    else FirstWhere(rows[..|rows| - 1], col, value)
  }

  /** Under the unique constraints at most one row holds a given value of either column. */
  lemma AtMostOneHolder(rows: seq<Professional>, col: Column, value: string, i: nat, j: nat)
    requires UniqueKeys(rows)
    requires i < |rows| && j < |rows|
    requires Has(rows[i], col, value) && Has(rows[j], col, value)
    ensures i == j
  {
    if i < j {
      assert Collide(rows[i].profile, rows[j].profile);
    } else if j < i {
      assert Collide(rows[j].profile, rows[i].profile);
    }
  }

  function Reverse(s: seq<Professional>): (r: seq<Professional>)
    ensures |r| == |s|
    ensures forall k :: 0 <= k < |s| ==> r[k] == s[|s| - 1 - k]
  {
    if s == [] then [] else [s[|s| - 1]] + Reverse(s[..|s| - 1])
  }

  lemma {:induction false} ReverseSameRows(s: seq<Professional>)
    ensures multiset(Reverse(s)) == multiset(s)
  {
    if s != [] {
      ReverseSameRows(s[..|s| - 1]);
      assert s == s[..|s| - 1] + [s[|s| - 1]];
    }
  }

  /** `Professional.objects.all()` under `Meta.ordering = ['-created_at']`: every row once,
      newest first. */
  function ListAll(db: Db): (r: seq<Professional>)
    requires ValidDb(db)
    ensures multiset(r) == multiset(db.rows)
    ensures NewestFirst(r)
  {
    ReverseSameRows(db.rows);
    Reverse(db.rows)
  }

  /** The table as a mutable object: each write replaces its state as `Insert` and `Update` say. */
  class Table {
    var rows: seq<Professional>
    var nextId: nat
    var clock: nat

    function State(): Db
      reads this
    {
      Db(rows, nextId, clock)
    }

    ghost predicate Valid()
      reads this
    {
      ValidDb(State())
    }

    constructor ()
      ensures Valid() && State() == EmptyDb
    {
      rows, nextId, clock := [], 1, 0;
    }

    /** `Professional.objects.create(...)`. */
    method Create(p: Profile) returns (row: Option<Professional>)
      requires Valid()
      modifies this
      ensures Valid()
      ensures (State(), row) == Insert(old(State()), p)
    {
      if Fits(rows, p, None) {
        var r := Professional(nextId, p, clock);
        rows, nextId, clock := rows + [r], nextId + 1, clock + 1;
        row := Some(r);
      } else {
        row := None;
      }
    }

    /** `instance.save()` on the instance read from the row at `i`, whose columns are now `p`. */
    method Save(i: nat, p: Profile) returns (ok: bool)
      requires Valid() && i < |rows|
      modifies this
      ensures Valid()
      ensures (State(), ok) == Update(old(State()), i, p)
    {
      ok := Fits(rows, p, Some(i));
      if ok {
        rows := rows[i := Professional(rows[i].id, p, rows[i].createdAt)];
      }
    }
  }
}
