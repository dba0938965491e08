/** What the bulk upsert promises of a whole batch: every item is answered exactly once, in
    order, against the table its predecessors left; the table only grows by the created
    rows and keeps its constraints and column rules. */
module BatchProperties {
  import opened Common
  import opened Models
  import opened Serializers
  import opened Store
  import opened Views

  /** The item positions a bucket reports. */
  function Indices(s: seq<Entry>): set<nat> {
    set i | 0 <= i < |s| :: s[i].index
  }

  predicate Ascending(s: seq<Entry>) {
    forall i, j :: 0 <= i < j < |s| ==> s[i].index < s[j].index
  }

  predicate Below(s: seq<Entry>, n: nat) {
    forall i :: 0 <= i < |s| ==> s[i].index < n
  }

  lemma IndicesAppend(s: seq<Entry>, e: Entry)
    ensures Indices(s + [e]) == Indices(s) + {e.index}
  {
    assert forall i :: 0 <= i < |s| ==> (s + [e])[i] == s[i];
    assert (s + [e])[|s|] == e;
  }

  /** The buckets report the positions `0 .. n-1`, each in exactly one bucket, each bucket in
      increasing order, the sizes adding up to `n`. */
  predicate Partitioned(b: Buckets, n: nat) {
    && |b.created| + |b.updated| + |b.errors| == n
    && Ascending(b.created) && Ascending(b.updated) && Ascending(b.errors)
    && Below(b.created, n) && Below(b.updated, n) && Below(b.errors, n)
    && (forall k :: 0 <= k < n ==> k in Indices(b.created) + Indices(b.updated) + Indices(b.errors))
    && Indices(b.created) !! Indices(b.updated)
    && Indices(b.created) !! Indices(b.errors)
    && Indices(b.updated) !! Indices(b.errors)
  }

  lemma RecordPartitioned(b: Buckets, n: nat, item: RawItem, o: Outcome)
    requires Partitioned(b, n)
    ensures Partitioned(Record(b, n, item, o), n + 1)
  {
    assert n !in Indices(b.created) && n !in Indices(b.updated) && n !in Indices(b.errors);
    var b' := Record(b, n, item, o);
    match o {
      case Created(row) => IndicesAppend(b.created, Saved(n, row));
      case Updated(row) => IndicesAppend(b.updated, Saved(n, row));
      case Failed(e) => IndicesAppend(b.errors, Error(n, item, e));
    }
    var all := Indices(b.created) + Indices(b.updated) + Indices(b.errors);
    var all' := Indices(b'.created) + Indices(b'.updated) + Indices(b'.errors);
    assert all' == all + {n};
    forall k | 0 <= k < n + 1 ensures k in all' {
      if k < n {
        assert k in all;
      }
    }
  }

  /** The response to a batch of `n` items reports each position `0 .. n-1` exactly once:
      the buckets are disjoint, cover every position, list positions in increasing order and
      together hold `n` entries. */
  lemma {:induction false} RunPartition(db: Db, items: seq<RawItem>, isEmail: string -> bool)
    ensures Partitioned(Run(db, items, isEmail).1, |items|)
    decreases |items|
  {
    if items != [] {
      var n := |items| - 1;
      RunPartition(db, items[..n], isEmail);
      var (before, b) := Run(db, items[..n], isEmail);
      RecordPartitioned(b, n, items[n], ProcessItem(before, items[n], isEmail).1);
    }
  }

  predicate Extends(a: Buckets, b: Buckets) {
    a.created <= b.created && a.updated <= b.updated && a.errors <= b.errors
  }

  lemma RecordExtends(b: Buckets, n: nat, item: RawItem, o: Outcome)
    ensures Extends(b, Record(b, n, item, o))
  {
  }

  /** Along a chain of buckets where each extends the next, every one extends the last. */
  lemma {:induction false} ChainExtends(bs: seq<Buckets>, m: nat)
    requires m < |bs|
    requires forall k :: 0 <= k < |bs| - 1 ==> Extends(bs[k], bs[k + 1])
    ensures Extends(bs[m], bs[|bs| - 1])
    decreases |bs| - m
  {
    if m < |bs| - 1 {
      ChainExtends(bs, m + 1);
    }
  }

  /** One more item only appends to the buckets. */
  lemma RunStepExtends(db: Db, items: seq<RawItem>, isEmail: string -> bool)
    requires items != []
    ensures Extends(Run(db, items[..|items| - 1], isEmail).1, Run(db, items, isEmail).1)
  {
    var n := |items| - 1;
    RunLast(db, items, isEmail);
    var (before, b) := Run(db, items[..n], isEmail);
    RecordExtends(b, n, items[n], ProcessItem(before, items[n], isEmail).1);
  }

  /** Later items only append: the buckets after a prefix of the batch are prefixes of the
      final buckets. */
  lemma RunExtends(db: Db, items: seq<RawItem>, m: nat, isEmail: string -> bool)
    requires m <= |items|
    ensures Extends(Run(db, items[..m], isEmail).1, Run(db, items, isEmail).1)
  {
    var bs := seq(|items| + 1, k requires 0 <= k <= |items| => Run(db, items[..k], isEmail).1);
    forall k | 0 <= k < |bs| - 1 ensures Extends(bs[k], bs[k + 1]) {
      StepAt(db, items, k, isEmail);
    }
    ChainExtends(bs, m);
    assert items[..|items|] == items;
  }

  /** The item at index `k` only appends to the buckets of the items before it. */
  lemma StepAt(db: Db, items: seq<RawItem>, k: nat, isEmail: string -> bool)
    requires k < |items|
    ensures Extends(Run(db, items[..k], isEmail).1, Run(db, items[..k + 1], isEmail).1)
  {
    var p := items[..k + 1];
    assert p[..|p| - 1] == items[..k];
    RunStepExtends(db, p, isEmail);
  }

  /** The last step of a batch. */
  lemma RunLast(db: Db, items: seq<RawItem>, isEmail: string -> bool)
    requires items != []
    ensures var n := |items| - 1;
      var (before, b) := Run(db, items[..n], isEmail);
      var (after, o) := ProcessItem(before, items[n], isEmail);
      Run(db, items, isEmail) == (after, Record(b, n, items[n], o))
  {
  }

  lemma RecordedIn(b: Buckets, k: nat, item: RawItem, o: Outcome, final: Buckets)
    requires Extends(Record(b, k, item, o), final)
    ensures match o
      case Created(row) => Saved(k, row) in final.created
      case Updated(row) => Saved(k, row) in final.updated
      case Failed(e) => Error(k, item, e) in final.errors
  {
    var b' := Record(b, k, item, o);
    match o {
      case Created(row) => assert b'.created[|b.created|] == Saved(k, row);
      case Updated(row) => assert b'.updated[|b.updated|] == Saved(k, row);
      case Failed(e) => assert b'.errors[|b.errors|] == Error(k, item, e);
    }
  }

  /** The item at position `k` is answered by processing it against the table the items
      before it left; its entry in the response carries that outcome. */
  lemma ItemOutcome(db: Db, items: seq<RawItem>, k: nat, isEmail: string -> bool)
    requires k < |items|
    ensures var before := Run(db, items[..k], isEmail).0;
      var b := Run(db, items, isEmail).1;
      match ProcessItem(before, items[k], isEmail).1
      case Created(row) => Saved(k, row) in b.created
      case Updated(row) => Saved(k, row) in b.updated
      case Failed(e) => Error(k, items[k], e) in b.errors
  {
    var prefix := items[..k + 1];
    RunExtends(db, items, k + 1, isEmail);
    RunLast(db, prefix, isEmail);
    assert prefix[..k] == items[..k] && prefix[k] == items[k];
    var (before, b) := Run(db, items[..k], isEmail);
    RecordedIn(b, k, items[k], ProcessItem(before, items[k], isEmail).1, Run(db, items, isEmail).1);
  }

  lemma ValidatedGrowth(db: Db, v: ValidatedItem)
    ensures var (after, o) := ProcessValidated(db, v);
      && |after.rows| == |db.rows| + (if o.Created? then 1 else 0)
      && forall i :: 0 <= i < |db.rows| ==> after.rows[i].id == db.rows[i].id && after.rows[i].createdAt == db.rows[i].createdAt
  {
    var (after, o) := ProcessValidated(db, v);
    if o.Updated? {
      var w := Lookup(db.rows, KeyOf(v)).value;
      assert after.rows[w].id == db.rows[w].id && after.rows[w].createdAt == db.rows[w].createdAt;
    }
  }

  /** One item adds a row exactly when it is answered as created, and keeps every row's `id`. */
  lemma ProcessGrowth(db: Db, item: RawItem, isEmail: string -> bool)
    ensures var (after, o) := ProcessItem(db, item, isEmail);
      && |after.rows| == |db.rows| + (if o.Created? then 1 else 0)
      && forall i :: 0 <= i < |db.rows| ==> after.rows[i].id == db.rows[i].id && after.rows[i].createdAt == db.rows[i].createdAt
  {
    var validation := ValidateBulkItem(item, isEmail);
    if validation.Success? {
      ValidatedGrowth(db, validation.value);
    }
  }

  lemma RecordCreated(b: Buckets, n: nat, item: RawItem, o: Outcome)
    ensures |Record(b, n, item, o).created| == |b.created| + (if o.Created? then 1 else 0)
  {
  }

  /** No row is ever removed or replaced by another: the stored rows keep their position and
      `id`, and the table grows by exactly the rows reported as created. */
  lemma {:induction false} RunGrowth(db: Db, items: seq<RawItem>, isEmail: string -> bool)
    ensures var (after, b) := Run(db, items, isEmail);
      && |after.rows| == |db.rows| + |b.created|
      && forall i :: 0 <= i < |db.rows| ==> after.rows[i].id == db.rows[i].id && after.rows[i].createdAt == db.rows[i].createdAt
    decreases |items|
  {
    if items != [] {
      var n := |items| - 1;
      RunGrowth(db, items[..n], isEmail);
      RunLast(db, items, isEmail);
      var (before, b) := Run(db, items[..n], isEmail);
      ProcessGrowth(before, items[n], isEmail);
      RecordCreated(b, n, items[n], ProcessItem(before, items[n], isEmail).1);
    }
  }

  /** Every stored row satisfies the column rules. */
  predicate RowsOk(db: Db) {
    forall i :: 0 <= i < |db.rows| ==> ProfileOk(db.rows[i].profile)
  }

  lemma NewProfileOk(v: ValidatedItem, isEmail: string -> bool)
    requires ValidatedOk(v, isEmail)
    ensures ProfileOk(NewProfile(v))
  {
  }

  lemma ApplyFieldsOk(p: Profile, v: ValidatedItem, isEmail: string -> bool)
    requires ProfileOk(p) && ValidatedOk(v, isEmail)
    ensures ProfileOk(ApplyFields(p, v))
  {
  }

  lemma ValidatedKeepsRowsOk(db: Db, v: ValidatedItem, isEmail: string -> bool)
    requires RowsOk(db) && ValidatedOk(v, isEmail)
    ensures RowsOk(ProcessValidated(db, v).0)
  {
    NewProfileOk(v, isEmail);
    var r := ProcessValidated(db, v);
    if r.1.Updated? {
      var i := Lookup(db.rows, KeyOf(v)).value;
      ApplyFieldsOk(db.rows[i].profile, v, isEmail);
    }
  }

  lemma ProcessKeepsRowsOk(db: Db, item: RawItem, isEmail: string -> bool)
    requires RowsOk(db)
    ensures RowsOk(ProcessItem(db, item, isEmail).0)
  {
    var validation := ValidateBulkItem(item, isEmail);
    if validation.Success? {
      ValidatedKeepsRowsOk(db, validation.value, isEmail);
    }
  }

  /** A table whose rows satisfy the column rules keeps satisfying them, whatever the batch. */
  lemma {:induction false} RunKeepsRowsOk(db: Db, items: seq<RawItem>, isEmail: string -> bool)
    requires RowsOk(db)
    ensures RowsOk(Run(db, items, isEmail).0)
    decreases |items|
  {
    if items != [] {
      var n := |items| - 1;
      RunKeepsRowsOk(db, items[..n], isEmail);
      ProcessKeepsRowsOk(Run(db, items[..n], isEmail).0, items[n], isEmail);
    }
  }
}
