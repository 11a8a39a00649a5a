/** The repository pattern every entity package under business/domain repeats: reads
    built from predicate options and an equality filter, and writes that drive one
    transaction through begin, exec, affected-row check and commit. One generic model
    covers all of them; an entity differs only in its business payload `B` and in the
    column lists of its four statements (its `Schema`). */
module Store {
  import opened Errors

  /** A timestamp in seconds; `ZeroTime` is Go's zero `time.Time`, 0001-01-01 00:00:00. */
  type Time = int
  const ZeroTime: Time := 0

  /** What the read statements substitute for a NULL `updated_at` or `deleted_at`:
      `TIMESTAMP("01-01-0001")`. MySQL reads a delimited date whose first field has two
      digits as YY-MM-DD, and the year 01 as 2001, so this is 2001-01-01 00:00:00, which
      lies 730485 days after the zero time. It is not Go's zero time. */
  const CoalescedTime: Time := 730485 * 86400

  /** An entity value as the Go struct holds it: id, business fields and the audit columns. */
  datatype Record<B> = Record(
    id: int,
    biz: B,
    isDeleted: int,
    createdAt: Time,
    createdBy: string,
    updatedAt: Time,
    updatedBy: string,
    deletedAt: Time,
    deletedBy: string)

  /** A stored table row; the update and deletion audit columns are NULL until written. */
  datatype Row<B> = Row(
    id: int,
    biz: B,
    isDeleted: int,
    createdAt: Time,
    createdBy: string,
    updatedAt: Option<Time>,
    updatedBy: Option<string>,
    deletedAt: Option<Time>,
    deletedBy: Option<string>)

  /** What an entity's `*_query.go` fixes: the `db` tags of its struct, the columns its
      read statement selects, the named parameters each write statement binds, and the
      messages of its "no rows affected" errors. */
  datatype Schema = Schema(
    fields: set<string>,
    readColumns: set<string>,
    createBinds: set<string>,
    updateBinds: set<string>,
    deleteBinds: set<string>,
    noneCreated: string,
    noneUpdated: string,
    noneDeleted: string)

  /** The shared `prefix`/`suffix` slots the predicate options write into. */
  datatype Slots = Slots(prefix: string, suffix: string)

  /** A predicate option `func(prefix, suffix *string) error`: it sees the current slots
      and either leaves new contents in them or fails. */
  type PredicateOption = Slots -> Result<Slots>

  const NotDeletedSuffix: string := "AND is_deleted = 0"

  /** The option every list usecase passes: it sets the suffix and never fails. */
  const NotDeletedOption: PredicateOption := (s: Slots) => Ok(Slots(s.prefix, NotDeletedSuffix))

  datatype Query<B> = Query(param: Record<B>, slots: Slots)

  /** The parts of the storage engine the model leaves abstract: when a business payload
      matches the equality predicates built from a filter payload, and what a raw
      prefix/suffix pair other than the ones the core uses selects. */
  datatype Engine<!B> = Engine(bizMatch: (B, B) -> bool, fragment: (Slots, Row<B>) -> bool)

  /** A table at one moment: its schema, engine, rows by id and the next id to assign. */
  datatype Db<!B> = Db(schema: Schema, engine: Engine<B>, rows: map<int, Row<B>>, next: int)

  /** Ids are assigned 1, 2, 3, ... and rows are never physically removed. */
  ghost predicate Dense<B>(db: Db<B>)
  {
    && db.next >= 1
    && (forall k :: k in db.rows <==> 1 <= k < db.next)
    && (forall k :: k in db.rows ==> db.rows[k].id == k)
  }

  /** Failures of the collaborators a read goes through, each one an oracle. */
  datatype ReadFaults = ReadFaults(
    newBuilder: Option<Error>,
    build: Option<Error>,
    query: Option<Error>,
    scan: Option<Error>)

  /** Failures of the transaction a write goes through, each one an oracle. */
  datatype WriteFaults = WriteFaults(
    begin: Option<Error>,
    exec: Option<Error>,
    rowsAffected: Option<Error>,
    commit: Option<Error>,
    lastInsertId: Option<Error>)

  // ----- predicate options -----

  /** The options run in order against one pair of slots; the first failure aborts. */
  function RunOptions(opts: seq<PredicateOption>, slots: Slots): Result<Slots>
    decreases |opts|
  {
    if opts == [] then Ok(slots)
    else
      match opts[0](slots)
      case Fail(e) => Fail(e)
      case Ok(next) => RunOptions(opts[1..], next)
  }

  /** The loop at the head of GetList and GetDetail. */
  method ApplyOptions(opts: seq<PredicateOption>) returns (r: Result<Slots>)
    ensures r == RunOptions(opts, Slots("", ""))
  {
    var prefix, suffix := "", "";
    for i := 0 to |opts|
      invariant RunOptions(opts, Slots("", "")) == RunOptions(opts[i..], Slots(prefix, suffix))
    {
      assert opts[i..][1..] == opts[i + 1..];
      var out := opts[i](Slots(prefix, suffix));
      if out.Fail? {
        return Fail(out.error);
      }
      prefix, suffix := out.value.prefix, out.value.suffix;
    }
    assert opts[|opts|..] == [];
    return Ok(Slots(prefix, suffix));
  }

  /** Running `a + b` is running `a` and then, unless it failed, running `b`. */
  lemma {:induction false} RunOptionsAppend(a: seq<PredicateOption>, b: seq<PredicateOption>, s: Slots)
    ensures RunOptions(a + b, s) ==
              match RunOptions(a, s)
              case Fail(e) => Fail(e)
              case Ok(t) => RunOptions(b, t)
    decreases |a|
  {
    if a == [] {
      assert a + b == b;
    } else {
      assert (a + b)[1..] == a[1..] + b;
      match a[0](s)
      case Fail(e) =>
      case Ok(t) => RunOptionsAppend(a[1..], b, t);
    }
  }

  /** An option that fails aborts the whole run with its own error, whatever follows it. */
  lemma FailingOptionAborts(a: seq<PredicateOption>, opt: PredicateOption, b: seq<PredicateOption>, s: Slots)
    requires RunOptions(a, s).Ok? && opt(RunOptions(a, s).value).Fail?
    ensures RunOptions(a + [opt] + b, s) == Fail(opt(RunOptions(a, s).value).error)
  {
    RunOptionsAppend(a + [opt], b, s);
    RunOptionsAppend(a, [opt], s);
  }

  lemma NotDeletedOptionSetsSuffix(s: Slots)
    ensures RunOptions([NotDeletedOption], s) == Ok(Slots(s.prefix, NotDeletedSuffix))
  {
    assert [NotDeletedOption][1..] == [];
  }

  // ----- selection -----

  /** The equality predicates the query builder makes of a filter record: one per
      field that is not the zero value. */
  predicate Matches<B>(e: Engine<B>, p: Record<B>, row: Row<B>)
  {
    && (p.id != 0 ==> row.id == p.id)
    && (p.isDeleted != 0 ==> row.isDeleted == p.isDeleted)
    && (p.createdAt != ZeroTime ==> row.createdAt == p.createdAt)
    && (p.createdBy != "" ==> row.createdBy == p.createdBy)
    && (p.updatedAt != ZeroTime ==> row.updatedAt == Some(p.updatedAt))
    && (p.updatedBy != "" ==> row.updatedBy == Some(p.updatedBy))
    && (p.deletedAt != ZeroTime ==> row.deletedAt == Some(p.deletedAt))
    && (p.deletedBy != "" ==> row.deletedBy == Some(p.deletedBy))
    && e.bizMatch(p.biz, row.biz)
  }

  /** The raw prefix/suffix text: no text adds nothing, the not-deleted suffix keeps the
      live rows, and any other text is left to the engine. */
  predicate FragmentHolds<B>(e: Engine<B>, slots: Slots, row: Row<B>)
  {
    if slots == Slots("", "") then true
    else if slots == Slots("", NotDeletedSuffix) then row.isDeleted == 0
    else e.fragment(slots, row)
  }

  predicate Where<B>(e: Engine<B>, q: Query<B>, row: Row<B>)
  {
    Matches(e, q.param, row) && FragmentHolds(e, q.slots, row)
  }

  function SelectBelow<B>(db: Db<B>, q: Query<B>, n: int): seq<Row<B>>
    requires Dense(db) && n <= db.next
    decreases n
  {
    if n <= 1 then []
    else
      SelectBelow(db, q, n - 1) + (if Where(db.engine, q, db.rows[n - 1]) then [db.rows[n - 1]] else [])
  }

  /** The rows a query returns, in ascending id order. */
  function Selected<B>(db: Db<B>, q: Query<B>): seq<Row<B>>
    requires Dense(db)
  {
    SelectBelow(db, q, db.next)
  }

  lemma {:induction false} SelectBelowMembers<B>(db: Db<B>, q: Query<B>, n: int)
    requires Dense(db) && n <= db.next
    ensures forall row :: row in SelectBelow(db, q, n) ==>
              1 <= row.id < n && db.rows[row.id] == row && Where(db.engine, q, row)
    ensures forall k :: 1 <= k < n && Where(db.engine, q, db.rows[k]) ==> db.rows[k] in SelectBelow(db, q, n)
    ensures forall i, j :: 0 <= i < j < |SelectBelow(db, q, n)| ==>
              SelectBelow(db, q, n)[i].id < SelectBelow(db, q, n)[j].id
    decreases n
  {
    if n > 1 {
      SelectBelowMembers(db, q, n - 1);
      var prev, all := SelectBelow(db, q, n - 1), SelectBelow(db, q, n);
      forall i, j | 0 <= i < j < |all|
        ensures all[i].id < all[j].id
      {
        assert all[i] == prev[i];
        if j >= |prev| {
          assert all[j] == db.rows[n - 1];
          assert prev[i] in prev;
        } else {
          assert all[j] == prev[j];
          assert prev[i].id < prev[j].id;
        }
      }
    }
  }

  /** A row is returned exactly when it is stored and satisfies the query; rows come
      in ascending id order, so no row comes twice. */
  lemma SelectedMembers<B>(db: Db<B>, q: Query<B>)
    requires Dense(db)
    ensures forall row :: row in Selected(db, q) ==>
              row.id in db.rows && db.rows[row.id] == row && Where(db.engine, q, row)
    ensures forall k :: k in db.rows && Where(db.engine, q, db.rows[k]) ==> db.rows[k] in Selected(db, q)
    ensures forall i, j :: 0 <= i < j < |Selected(db, q)| ==> Selected(db, q)[i].id < Selected(db, q)[j].id
  {
    SelectBelowMembers(db, q, db.next);
  }

  lemma {:induction false} SelectBelowEmpty<B>(db: Db<B>, q: Query<B>, n: int)
    requires Dense(db) && n <= db.next
    ensures SelectBelow(db, q, n) == [] <==> forall k :: 1 <= k < n ==> !Where(db.engine, q, db.rows[k])
    decreases n
  {
    if n > 1 {
      SelectBelowEmpty(db, q, n - 1);
      var prev := SelectBelow(db, q, n - 1);
      var last: seq<Row<B>> := if Where(db.engine, q, db.rows[n - 1]) then [db.rows[n - 1]] else [];
      assert SelectBelow(db, q, n) == prev + last;
      assert |prev + last| == |prev| + |last|;
    }
  }

  /** A query returns no row exactly when no stored row satisfies it. */
  lemma SelectedEmpty<B>(db: Db<B>, q: Query<B>)
    requires Dense(db)
    ensures Selected(db, q) == [] <==> forall k :: k in db.rows ==> !Where(db.engine, q, db.rows[k])
  {
    SelectBelowEmpty(db, q, db.next);
  }

  // ----- reading rows back -----

  function Coalesce<T>(v: Option<T>, default: T): T
  {
    match v
    case Some(x) => x
    case None => default
  }

  /** What the read statement turns a row into: NULL update and deletion times become
      `CoalescedTime`, NULL update and deletion users become "", and columns the statement
      does not select stay zero. */
  function ReadBack<B>(s: Schema, row: Row<B>): Record<B>
  {
    Record(
      row.id,
      row.biz,
      row.isDeleted,
      if "created_at" in s.readColumns then row.createdAt else ZeroTime,
      if "created_by" in s.readColumns then row.createdBy else "",
      Coalesce(row.updatedAt, CoalescedTime),
      Coalesce(row.updatedBy, ""),
      Coalesce(row.deletedAt, CoalescedTime),
      Coalesce(row.deletedBy, ""))
  }

  /** The rows scanned one by one, in the order they came. */
  function ReadAll<B>(s: Schema, rows: seq<Row<B>>): (r: seq<Record<B>>)
    ensures |r| == |rows|
    ensures forall i :: 0 <= i < |r| ==> r[i] == ReadBack(s, rows[i])
  {
    if rows == [] then [] else ReadAll(s, rows[..|rows| - 1]) + [ReadBack(s, rows[|rows| - 1])]
  }

  /** A scan fails when the driver fails it, or when the read statement selects a column
      the struct has no field for. */
  function ScanError(s: Schema, f: ReadFaults): Option<Error>
  {
    if f.scan.Some? then f.scan
    else if s.readColumns <= s.fields then None
    else Some(Error(Uncoded, "missing destination name"))
  }

  /** GetList: builder errors are coded, option, build and scan errors come back as they
      are, a query error is SQLRead, and no matching row is an empty list. */
  function ListOf<B>(db: Db<B>, param: Record<B>, opts: seq<PredicateOption>, f: ReadFaults): Result<seq<Record<B>>>
    requires Dense(db)
  {
    if f.newBuilder.Some? then Fail(Recode(SQLBuilder, f.newBuilder.value))
    else
      match RunOptions(opts, Slots("", ""))
      case Fail(e) => Fail(e)
      case Ok(slots) =>
        if f.build.Some? then Fail(f.build.value)
        else if f.query.Some? then Fail(Recode(SQLRead, f.query.value))
        else
          var rows := Selected(db, Query(param, slots));
          if rows != [] && ScanError(db.schema, f).Some? then Fail(ScanError(db.schema, f).value)
          else Ok(ReadAll(db.schema, rows))
  }

  /** GetDetail: every stage is coded (builder SQLBuilder, query or no row SQLRead,
      scan SQLRowScan); the first returned row is the result. */
  function DetailOf<B>(db: Db<B>, param: Record<B>, opts: seq<PredicateOption>, f: ReadFaults): Result<Record<B>>
    requires Dense(db)
  {
    if f.newBuilder.Some? then Fail(Recode(SQLBuilder, f.newBuilder.value))
    else
      match RunOptions(opts, Slots("", ""))
      case Fail(e) => Fail(e)
      case Ok(slots) =>
        if f.build.Some? then Fail(Recode(SQLBuilder, f.build.value))
        else if f.query.Some? then Fail(Recode(SQLRead, f.query.value))
        else
          var rows := Selected(db, Query(param, slots));
          if rows == [] then Fail(Error(SQLRead, "sql: no rows in result set"))
          else if ScanError(db.schema, f).Some? then Fail(Recode(SQLRowScan, ScanError(db.schema, f).value))
          else Ok(ReadBack(db.schema, rows[0]))
  }

  ghost function Ids<B>(l: seq<Record<B>>): set<int>
  {
    set rec | rec in l :: rec.id
  }

  /** The list a list usecase asks for (the not-deleted option only) holds, for every
      stored row, that row read back exactly when it is live and matches the filter. */
  lemma LiveListing<B>(db: Db<B>, param: Record<B>, f: ReadFaults)
    requires Dense(db)
    requires ListOf(db, param, [NotDeletedOption], f).Ok?
    ensures var l := ListOf(db, param, [NotDeletedOption], f).value;
            && (forall rec :: rec in l ==> rec.id in db.rows && rec == ReadBack(db.schema, db.rows[rec.id]))
            && (forall k :: k in db.rows ==>
                  (k in Ids(l) <==> db.rows[k].isDeleted == 0 && Matches(db.engine, param, db.rows[k])))
  {
    NotDeletedOptionSetsSuffix(Slots("", ""));
    var q := Query(param, Slots("", NotDeletedSuffix));
    var rows := Selected(db, q);
    SelectedMembers(db, q);
    var l := ListOf(db, param, [NotDeletedOption], f).value;
    assert l == ReadAll(db.schema, rows);
    forall rec | rec in l
      ensures rec.id in db.rows && rec == ReadBack(db.schema, db.rows[rec.id])
    {
      var i :| 0 <= i < |l| && l[i] == rec;
      assert rows[i] in rows;
    }
    forall k | k in db.rows
      ensures k in Ids(l) <==> db.rows[k].isDeleted == 0 && Matches(db.engine, param, db.rows[k])
    {
      if db.rows[k].isDeleted == 0 && Matches(db.engine, param, db.rows[k]) {
        assert db.rows[k] in rows;
        var i :| 0 <= i < |rows| && rows[i] == db.rows[k];
        assert l[i] in l;
      }
      if k in Ids(l) {
        var rec :| rec in l && rec.id == k;
        var i :| 0 <= i < |l| && l[i] == rec;
        assert rows[i] in rows;
      }
    }
  }

  /** A detail read that succeeds returns, read back, the stored row with the lowest id
      among those satisfying the query built from the filter and the options. */
  lemma DetailIsFirstMatch<B>(db: Db<B>, param: Record<B>, opts: seq<PredicateOption>, f: ReadFaults)
    requires Dense(db) && DetailOf(db, param, opts, f).Ok?
    ensures RunOptions(opts, Slots("", "")).Ok?
    ensures var q := Query(param, RunOptions(opts, Slots("", "")).value);
            var r := DetailOf(db, param, opts, f).value;
            && r.id in db.rows
            && Where(db.engine, q, db.rows[r.id])
            && r == ReadBack(db.schema, db.rows[r.id])
            && forall k :: k in db.rows && Where(db.engine, q, db.rows[k]) ==> r.id <= k
  {
    var q := Query(param, RunOptions(opts, Slots("", "")).value);
    var rows := Selected(db, q);
    SelectedMembers(db, q);
    assert rows != [];
    assert rows[0] in rows;
    forall row | row in rows
      ensures rows[0].id <= row.id
    {
      var i :| 0 <= i < |rows| && rows[i] == row;
      if i > 0 {
        assert rows[0].id < rows[i].id;
      }
    }
  }

  /** The error of a failed detail read is the code of its first failing stage: the
      builder (SQLBuilder), an option, the query or a missing row (SQLRead), the scan
      (SQLRowScan). */
  lemma DetailStageCodes<B>(db: Db<B>, param: Record<B>, opts: seq<PredicateOption>, f: ReadFaults)
    requires Dense(db)
    ensures var r := DetailOf(db, param, opts, f);
            var slots := RunOptions(opts, Slots("", ""));
      && (f.newBuilder.Some? ==> r == Fail(Recode(SQLBuilder, f.newBuilder.value)))
      && (f.newBuilder.None? && slots.Fail? ==> r == Fail(slots.error))
      && (f.newBuilder.None? && slots.Ok? && f.build.Some? ==> r == Fail(Recode(SQLBuilder, f.build.value)))
      && (f.newBuilder.None? && slots.Ok? && f.build.None? && f.query.Some? ==> r == Fail(Recode(SQLRead, f.query.value)))
      && (f.newBuilder.None? && slots.Ok? && f.build.None? && f.query.None? && Selected(db, Query(param, slots.value)) == [] ==>
            r == Fail(Error(SQLRead, "sql: no rows in result set")))
      && (f.newBuilder.None? && slots.Ok? && f.build.None? && f.query.None? &&
          Selected(db, Query(param, slots.value)) != [] && ScanError(db.schema, f).Some? ==>
            r == Fail(Recode(SQLRowScan, ScanError(db.schema, f).value)))
  {
  }

  /** The error of a failed list read is that of its first failing stage: the builder is
      coded SQLBuilder and the query SQLRead, while an option, `Build` or scan error comes
      back as it is, and a scan error only when some row came back. Unlike the detail
      read, no row is not an error. */
  lemma ListStageCodes<B>(db: Db<B>, param: Record<B>, opts: seq<PredicateOption>, f: ReadFaults)
    requires Dense(db)
    ensures var r := ListOf(db, param, opts, f);
            var slots := RunOptions(opts, Slots("", ""));
      && (f.newBuilder.Some? ==> r == Fail(Recode(SQLBuilder, f.newBuilder.value)))
      && (f.newBuilder.None? && slots.Fail? ==> r == Fail(slots.error))
      && (f.newBuilder.None? && slots.Ok? && f.build.Some? ==> r == Fail(f.build.value))
      && (f.newBuilder.None? && slots.Ok? && f.build.None? && f.query.Some? ==> r == Fail(Recode(SQLRead, f.query.value)))
      && (f.newBuilder.None? && slots.Ok? && f.build.None? && f.query.None? &&
          Selected(db, Query(param, slots.value)) == [] ==>
            r == Ok([]))
      && (f.newBuilder.None? && slots.Ok? && f.build.None? && f.query.None? &&
          Selected(db, Query(param, slots.value)) != [] && ScanError(db.schema, f).Some? ==>
            r == Fail(ScanError(db.schema, f).value))
  {
  }

  /** A list read whose query runs and that no stored row satisfies is an empty list, not
      an error. */
  lemma NoMatchIsEmptyList<B>(db: Db<B>, param: Record<B>, opts: seq<PredicateOption>, f: ReadFaults)
    requires Dense(db) && RunOptions(opts, Slots("", "")).Ok?
    requires f.newBuilder.None? && f.build.None? && f.query.None?
    requires forall k :: k in db.rows ==> !Where(db.engine, Query(param, RunOptions(opts, Slots("", "")).value), db.rows[k])
    ensures ListOf(db, param, opts, f) == Ok([])
  {
    SelectedEmpty(db, Query(param, RunOptions(opts, Slots("", "")).value));
  }

  /** A detail lookup by id with no options finds the row with that id whether or not
      it is soft-deleted, provided its other filter fields match. */
  lemma DetailFindsById<B>(db: Db<B>, param: Record<B>, f: ReadFaults)
    requires Dense(db) && param.id in db.rows
    requires Matches(db.engine, param, db.rows[param.id])
    requires f.newBuilder.None? && f.build.None? && f.query.None? && ScanError(db.schema, f).None?
    ensures DetailOf(db, param, [], f) == Ok(ReadBack(db.schema, db.rows[param.id]))
  {
    var q := Query(param, Slots("", ""));
    SelectedMembers(db, q);
    assert db.rows[param.id].id == param.id;
    assert db.rows[param.id] in Selected(db, q);
    var rows := Selected(db, q);
    assert param.id != 0;
    assert rows[0] in rows;
    assert Where(db.engine, q, rows[0]);
    assert Matches(db.engine, param, rows[0]);
  }

  /** A record whose id and audit fields are all zero puts no condition on them. */
  predicate NoAuditFilter<B>(p: Record<B>)
  {
    && p.id == 0 && p.isDeleted == 0
    && p.createdAt == ZeroTime && p.createdBy == ""
    && p.updatedAt == ZeroTime && p.updatedBy == ""
    && p.deletedAt == ZeroTime && p.deletedBy == ""
  }

  /** A detail lookup whose filter selects every row returns the row with the lowest id,
      1, whatever it holds. */
  lemma UnfilteredDetailIsFirstRow<B>(db: Db<B>, param: Record<B>, f: ReadFaults)
    requires Dense(db) && 1 in db.rows
    requires NoAuditFilter(param) && forall k :: k in db.rows ==> db.engine.bizMatch(param.biz, db.rows[k].biz)
    requires f.newBuilder.None? && f.build.None? && f.query.None? && ScanError(db.schema, f).None?
    ensures DetailOf(db, param, [], f) == Ok(ReadBack(db.schema, db.rows[1]))
  {
    var q := Query(param, Slots("", ""));
    SelectedMembers(db, q);
    assert Where(db.engine, q, db.rows[1]);
    var rows := Selected(db, q);
    assert rows[0] in rows;
  }

  lemma {:induction false} SelectBelowSameIds<B>(db: Db<B>, db': Db<B>, q: Query<B>, n: int)
    requires Dense(db) && Dense(db') && db.next == db'.next && n <= db.next
    requires forall k :: k in db.rows ==> Where(db.engine, q, db.rows[k]) == Where(db'.engine, q, db'.rows[k])
    ensures |SelectBelow(db, q, n)| == |SelectBelow(db', q, n)|
    ensures forall i :: 0 <= i < |SelectBelow(db, q, n)| ==> SelectBelow(db, q, n)[i].id == SelectBelow(db', q, n)[i].id
    decreases n
  {
    if n > 1 {
      SelectBelowSameIds(db, db', q, n - 1);
      assert n - 1 in db.rows;
    }
  }

  /** Two tables with the same ids, on which a query selects the same ids, return rows
      with the same ids in the same order. */
  lemma SelectedSameIds<B>(db: Db<B>, db': Db<B>, q: Query<B>)
    requires Dense(db) && Dense(db') && db.next == db'.next
    requires forall k :: k in db.rows ==> Where(db.engine, q, db.rows[k]) == Where(db'.engine, q, db'.rows[k])
    ensures |Selected(db, q)| == |Selected(db', q)|
    ensures forall i :: 0 <= i < |Selected(db, q)| ==> Selected(db, q)[i].id == Selected(db', q)[i].id
  {
    SelectBelowSameIds(db, db', q, db.next);
  }

  /** With an unfiltered is_deleted column and no deletion filter, soft-deleting a row
      never changes whether a query selects it. */
  lemma SoftDeleteInvisibleToLookup<B>(e: Engine<B>, q: Query<B>, row: Row<B>, p: Record<B>)
    requires q.slots == Slots("", "")
    requires q.param.isDeleted == 0 && q.param.deletedAt == ZeroTime && q.param.deletedBy == ""
    ensures Where(e, q, SoftDeleted(row, p)) == Where(e, q, row)
  {
  }

  // ----- statement semantics -----

  /** The insert statement: the business columns, created_at, created_by and is_deleted
      of the caller's record; `id` comes from the auto-increment, the other audit
      columns stay NULL. */
  function Inserted<B>(p: Record<B>, id: int): Row<B>
  {
    Row(id, p.biz, p.isDeleted, p.createdAt, p.createdBy, None, None, None, None)
  }

  /** The update statement: the business columns, updated_at, updated_by and is_deleted
      of the caller's record, on the row with the caller's id. */
  function Updated<B>(row: Row<B>, p: Record<B>): Row<B>
  {
    row.(biz := p.biz, isDeleted := p.isDeleted, updatedAt := Some(p.updatedAt), updatedBy := Some(p.updatedBy))
  }

  /** The delete statement: is_deleted, deleted_at and deleted_by only; nothing is removed. */
  function SoftDeleted<B>(row: Row<B>, p: Record<B>): Row<B>
  {
    row.(isDeleted := p.isDeleted, deletedAt := Some(p.deletedAt), deletedBy := Some(p.deletedBy))
  }

  /** Binding a named parameter the struct has no field for fails before the statement runs. */
  function BindError(binds: set<string>, fields: set<string>): Option<Error>
  {
    if binds <= fields then None else Some(Error(Uncoded, "could not find name in struct"))
  }

  datatype TxOutcome = TxOutcome(committed: bool, error: Option<Error>)

  /** The stages of a write, each with its own error code: BeginTx (SQLTxBegin),
      NamedExec (SQLTxExec), RowsAffected failing or below 1 (SQLNoRowsAffected), Commit
      (SQLTxCommit) and, for an insert, LastInsertId after the commit (SQLNoRowsAffected). */
  function Transact(f: WriteFaults, bindError: Option<Error>, affected: int, noneMsg: string, readsInsertId: bool): (o: TxOutcome)
    ensures o.committed <==>
              f.begin.None? && bindError.None? && f.exec.None? && f.rowsAffected.None? && affected >= 1 && f.commit.None?
    ensures o.error.None? <==> o.committed && !(readsInsertId && f.lastInsertId.Some?)
    ensures o.committed && o.error.Some? ==> readsInsertId && o.error.value.code == SQLNoRowsAffected
  {
    if f.begin.Some? then TxOutcome(false, Some(Recode(SQLTxBegin, f.begin.value)))
    else if bindError.Some? then TxOutcome(false, Some(Recode(SQLTxExec, bindError.value)))
    else if f.exec.Some? then TxOutcome(false, Some(Recode(SQLTxExec, f.exec.value)))
    else if f.rowsAffected.Some? then TxOutcome(false, Some(Recode(SQLNoRowsAffected, f.rowsAffected.value)))
    else if affected < 1 then TxOutcome(false, Some(Error(SQLNoRowsAffected, noneMsg)))
    else if f.commit.Some? then TxOutcome(false, Some(Recode(SQLTxCommit, f.commit.value)))
    else if readsInsertId && f.lastInsertId.Some? then TxOutcome(true, Some(Recode(SQLNoRowsAffected, f.lastInsertId.value)))
    else TxOutcome(true, None)
  }

  /** The error of a failed write is the code of its first failing stage. */
  lemma TransactCodeOrder(f: WriteFaults, bindError: Option<Error>, affected: int, noneMsg: string, readsInsertId: bool)
    ensures var o := Transact(f, bindError, affected, noneMsg, readsInsertId);
      && (f.begin.Some? ==> o.error == Some(Recode(SQLTxBegin, f.begin.value)))
      && (f.begin.None? && bindError.Some? ==> o.error == Some(Recode(SQLTxExec, bindError.value)))
      && (f.begin.None? && bindError.None? && f.exec.Some? ==> o.error == Some(Recode(SQLTxExec, f.exec.value)))
      && (f.begin.None? && bindError.None? && f.exec.None? && f.rowsAffected.Some? ==>
            o.error == Some(Recode(SQLNoRowsAffected, f.rowsAffected.value)))
      && (f.begin.None? && bindError.None? && f.exec.None? && f.rowsAffected.None? && affected < 1 ==>
            o.error == Some(Error(SQLNoRowsAffected, noneMsg)))
      && (f.begin.None? && bindError.None? && f.exec.None? && f.rowsAffected.None? && affected >= 1 && f.commit.Some? ==>
            o.error == Some(Recode(SQLTxCommit, f.commit.value)))
      && (o.committed || o.error.value.code in {SQLTxBegin, SQLTxExec, SQLNoRowsAffected, SQLTxCommit})
  {
  }

  /** Outcome and new table of a write. */
  datatype Written<!B> = Written(result: Result<Record<B>>, db: Db<B>)

  /** Create: on success the caller's record comes back with the assigned id. */
  function CreateIn<B>(db: Db<B>, p: Record<B>, f: WriteFaults): (w: Written<B>)
    requires Dense(db)
    ensures Dense(w.db) && w.db.schema == db.schema && w.db.engine == db.engine
  {
    var id := db.next;
    var o := Transact(f, BindError(db.schema.createBinds, db.schema.fields), 1, db.schema.noneCreated, true);
    Written(
      if o.error.Some? then Fail(o.error.value) else Ok(p.(id := id)),
      if o.committed then db.(rows := db.rows[id := Inserted(p, id)], next := id + 1) else db)
  }

  /** Update: on success the caller's record comes back unchanged. */
  function UpdateIn<B>(db: Db<B>, p: Record<B>, f: WriteFaults): (w: Written<B>)
    requires Dense(db)
    ensures Dense(w.db) && w.db.schema == db.schema && w.db.engine == db.engine
  {
    var affected := if p.id in db.rows then 1 else 0;
    var o := Transact(f, BindError(db.schema.updateBinds, db.schema.fields), affected, db.schema.noneUpdated, false);
    Written(
      if o.error.Some? then Fail(o.error.value) else Ok(p),
      if o.committed then db.(rows := db.rows[p.id := Updated(db.rows[p.id], p)]) else db)
  }

  /** Delete: on success the caller's record comes back unchanged. */
  function DeleteIn<B>(db: Db<B>, p: Record<B>, f: WriteFaults): (w: Written<B>)
    requires Dense(db)
    ensures Dense(w.db) && w.db.schema == db.schema && w.db.engine == db.engine
  {
    var affected := if p.id in db.rows then 1 else 0;
    var o := Transact(f, BindError(db.schema.deleteBinds, db.schema.fields), affected, db.schema.noneDeleted, false);
    Written(
      if o.error.Some? then Fail(o.error.value) else Ok(p),
      if o.committed then db.(rows := db.rows[p.id := SoftDeleted(db.rows[p.id], p)]) else db)
  }

  /** A successful Create adds exactly one row, under a fresh id, holding the caller's
      business fields, creation audit fields and is_deleted; every other row is untouched.
      A failure before the commit leaves the table as it was; a LastInsertId failure
      after the commit reports an error although the row is stored. */
  lemma CreateEffect<B>(db: Db<B>, p: Record<B>, f: WriteFaults)
    requires Dense(db)
    ensures var w := CreateIn(db, p, f);
      && (w.result.Ok? ==> w.result.value == p.(id := db.next) && db.next !in db.rows)
      && (w.db != db ==>
            && w.db.rows.Keys == db.rows.Keys + {db.next}
            && (forall k :: k in db.rows ==> w.db.rows[k] == db.rows[k])
            && w.db.rows[db.next].biz == p.biz
            && w.db.rows[db.next].isDeleted == p.isDeleted
            && w.db.rows[db.next].createdAt == p.createdAt
            && w.db.rows[db.next].createdBy == p.createdBy
            && w.db.rows[db.next].updatedAt.None? && w.db.rows[db.next].deletedAt.None?)
      && (w.result.Ok? ==> w.db != db)
      && (w.db == db ==> w.result.Fail?)
      && (w.result.Fail? && w.db != db ==> f.lastInsertId.Some? && w.result.error.code == SQLNoRowsAffected)
  {
    assert db.next !in db.rows;
    var w := CreateIn(db, p, f);
    if w.db != db {
      assert w.db.rows.Keys == db.rows.Keys + {db.next};
    }
  }

  /** Reading back a freshly inserted row gives the caller's record with the assigned id,
      update and deletion times equal to the coalesced default (not the zero time that
      was written), empty update and deletion users, and zero creation fields where the
      read statement does not select them. */
  lemma CreateReadBack<B>(s: Schema, p: Record<B>, id: int)
    ensures var r := ReadBack(s, Inserted(p, id));
      && r.id == id && r.biz == p.biz && r.isDeleted == p.isDeleted
      && r.updatedAt == CoalescedTime && r.updatedBy == "" && r.deletedAt == CoalescedTime && r.deletedBy == ""
      && r.updatedAt != ZeroTime && r.deletedAt != ZeroTime
      && r.createdAt == (if "created_at" in s.readColumns then p.createdAt else ZeroTime)
      && r.createdBy == (if "created_by" in s.readColumns then p.createdBy else "")
  {
  }

  /** A successful Update rewrites the business columns, updated_at, updated_by and
      is_deleted of the row with the caller's id, keeps its created and deleted columns,
      and touches no other row. `is_deleted` comes from the caller, so an update with
      is_deleted = 0 brings a soft-deleted row back. */
  lemma UpdateEffect<B>(db: Db<B>, p: Record<B>, f: WriteFaults)
    requires Dense(db)
    ensures var w := UpdateIn(db, p, f);
      && (w.result.Ok? <==>
            && p.id in db.rows && f.begin.None? && f.exec.None? && f.rowsAffected.None? && f.commit.None?
            && db.schema.updateBinds <= db.schema.fields)
      && (w.result.Fail? ==> w.db == db)
      && (w.result.Ok? ==>
            && w.result.value == p
            && p.id in db.rows
            && w.db.rows.Keys == db.rows.Keys
            && (forall k :: k in db.rows && k != p.id ==> w.db.rows[k] == db.rows[k])
            && var old_, new_ := db.rows[p.id], w.db.rows[p.id];
            && new_.id == p.id && new_.biz == p.biz && new_.isDeleted == p.isDeleted
            && new_.updatedAt == Some(p.updatedAt) && new_.updatedBy == Some(p.updatedBy)
            && new_.createdAt == old_.createdAt && new_.createdBy == old_.createdBy
            && new_.deletedAt == old_.deletedAt && new_.deletedBy == old_.deletedBy)
  {
  }

  /** A successful Delete changes only is_deleted, deleted_at and deleted_by of the row
      with the caller's id; the row stays stored. */
  lemma DeleteEffect<B>(db: Db<B>, p: Record<B>, f: WriteFaults)
    requires Dense(db)
    ensures var w := DeleteIn(db, p, f);
      && (w.result.Fail? ==> w.db == db)
      && (w.result.Ok? ==>
            && w.result.value == p
            && p.id in db.rows
            && w.db.rows.Keys == db.rows.Keys
            && (forall k :: k in db.rows && k != p.id ==> w.db.rows[k] == db.rows[k])
            && w.db.rows[p.id] == db.rows[p.id].(isDeleted := p.isDeleted,
                                                deletedAt := Some(p.deletedAt),
                                                deletedBy := Some(p.deletedBy)))
  {
  }

  /** Update and Delete of an id that is not stored change nothing and fail; once the
      earlier stages pass, the failure is SQLNoRowsAffected with the entity's message. */
  lemma WriteToMissingIdFails<B>(db: Db<B>, p: Record<B>, f: WriteFaults)
    requires Dense(db) && p.id !in db.rows
    ensures UpdateIn(db, p, f).db == db && UpdateIn(db, p, f).result.Fail?
    ensures DeleteIn(db, p, f).db == db && DeleteIn(db, p, f).result.Fail?
    ensures f.begin.None? && f.exec.None? && f.rowsAffected.None? &&
            db.schema.updateBinds <= db.schema.fields ==>
              UpdateIn(db, p, f).result == Fail(Error(SQLNoRowsAffected, db.schema.noneUpdated))
    ensures f.begin.None? && f.exec.None? && f.rowsAffected.None? &&
            db.schema.deleteBinds <= db.schema.fields ==>
              DeleteIn(db, p, f).result == Fail(Error(SQLNoRowsAffected, db.schema.noneDeleted))
  {
  }

  /** After a successful soft delete (is_deleted = 1) the row is still stored, but the
      list a list usecase asks for no longer contains it. */
  lemma DeleteHidesFromLiveList<B>(db: Db<B>, p: Record<B>, f: WriteFaults, param: Record<B>, g: ReadFaults)
    requires Dense(db) && p.isDeleted == 1
    requires DeleteIn(db, p, f).result.Ok?
    ensures p.id in DeleteIn(db, p, f).db.rows
    ensures ListOf(DeleteIn(db, p, f).db, param, [NotDeletedOption], g).Ok? ==>
              p.id !in Ids(ListOf(DeleteIn(db, p, f).db, param, [NotDeletedOption], g).value)
  {
    var db' := DeleteIn(db, p, f).db;
    DeleteEffect(db, p, f);
    if ListOf(db', param, [NotDeletedOption], g).Ok? {
      LiveListing(db', param, g);
    }
  }

  /** An Update that writes is_deleted = 0 over a soft-deleted row makes it listed again
      when it matches the list filter. */
  lemma UpdateReactivates<B>(db: Db<B>, p: Record<B>, f: WriteFaults, param: Record<B>, g: ReadFaults)
    requires Dense(db) && p.id in db.rows && db.rows[p.id].isDeleted == 1 && p.isDeleted == 0
    requires UpdateIn(db, p, f).result.Ok?
    requires Matches(db.engine, param, UpdateIn(db, p, f).db.rows[p.id])
    requires ListOf(UpdateIn(db, p, f).db, param, [NotDeletedOption], g).Ok?
    ensures UpdateIn(db, p, f).db.rows[p.id].isDeleted == 0
    ensures p.id in Ids(ListOf(UpdateIn(db, p, f).db, param, [NotDeletedOption], g).value)
  {
    var db' := UpdateIn(db, p, f).db;
    UpdateEffect(db, p, f);
    LiveListing(db', param, g);
  }

  /** The repository of one entity: its table, updated in place by the writes. */
  class Repository<B> {
    const schema: Schema
    const engine: Engine<B>
    var rows: map<int, Row<B>>
    var next: int

    function Snapshot(): Db<B>
      reads this
    {
      Db(schema, engine, rows, next)
    }

    ghost predicate Valid()
      reads this
    {
      Dense(Snapshot())
    }

    constructor (schema: Schema, engine: Engine<B>)
      ensures Valid() && Snapshot() == Db(schema, engine, map[], 1)
    {
      this.schema := schema;
      this.engine := engine;
      rows := map[];
      next := 1;
    }

    method GetList(param: Record<B>, opts: seq<PredicateOption>, f: ReadFaults) returns (r: Result<seq<Record<B>>>)
      requires Valid()
      ensures r == ListOf(Snapshot(), param, opts, f)
    {
      if f.newBuilder.Some? {
        return Fail(Recode(SQLBuilder, f.newBuilder.value));
      }
      var slots := ApplyOptions(opts);
      if slots.Fail? {
        return Fail(slots.error);
      }
      if f.build.Some? {
        return Fail(f.build.value);
      }
      if f.query.Some? {
        return Fail(Recode(SQLRead, f.query.value));
      }
      var cursor := Selected(Snapshot(), Query(param, slots.value));
      var results: seq<Record<B>> := [];
      for i := 0 to |cursor|
        invariant results == ReadAll(schema, cursor[..i])
        invariant i > 0 ==> ScanError(schema, f).None?
      {
        var scanErr := ScanError(schema, f);
        if scanErr.Some? {
          return Fail(scanErr.value);
        }
        assert cursor[..i + 1][..i] == cursor[..i];
        results := results + [ReadBack(schema, cursor[i])];
      }
      assert cursor[..|cursor|] == cursor;
      return Ok(results);
    }

    method GetDetail(param: Record<B>, opts: seq<PredicateOption>, f: ReadFaults) returns (r: Result<Record<B>>)
      requires Valid()
      ensures r == DetailOf(Snapshot(), param, opts, f)
    {
      if f.newBuilder.Some? {
        return Fail(Recode(SQLBuilder, f.newBuilder.value));
      }
      var slots := ApplyOptions(opts);
      if slots.Fail? {
        return Fail(slots.error);
      }
      if f.build.Some? {
        return Fail(Recode(SQLBuilder, f.build.value));
      }
      if f.query.Some? {
        return Fail(Recode(SQLRead, f.query.value));
      }
      var cursor := Selected(Snapshot(), Query(param, slots.value));
      if cursor == [] {
        return Fail(Error(SQLRead, "sql: no rows in result set"));
      }
      var scanErr := ScanError(schema, f);
      if scanErr.Some? {
        return Fail(Recode(SQLRowScan, scanErr.value));
      }
      return Ok(ReadBack(schema, cursor[0]));
    }

    /** The transaction works on `staged`, its private view of the table; returning
        before the commit runs the deferred Rollback, which drops it. */
    method Create(param: Record<B>, f: WriteFaults) returns (r: Result<Record<B>>)
      requires Valid()
      modifies this
      ensures Valid()
      ensures r == CreateIn(old(Snapshot()), param, f).result
      ensures Snapshot() == CreateIn(old(Snapshot()), param, f).db
    {
      if f.begin.Some? {
        return Fail(Recode(SQLTxBegin, f.begin.value));
      }
      var staged := rows;
      var bindErr := BindError(schema.createBinds, schema.fields);
      if bindErr.Some? {
        return Fail(Recode(SQLTxExec, bindErr.value));
      }
      if f.exec.Some? {
        return Fail(Recode(SQLTxExec, f.exec.value));
      }
      var id := next;
      staged := staged[id := Inserted(param, id)];
      var num := 1;
      if f.rowsAffected.Some? {
        return Fail(Recode(SQLNoRowsAffected, f.rowsAffected.value));
      }
      if num < 1 {
        return Fail(Error(SQLNoRowsAffected, schema.noneCreated));
      }
      if f.commit.Some? {
        return Fail(Recode(SQLTxCommit, f.commit.value));
      }
      rows, next := staged, next + 1;
      if f.lastInsertId.Some? {
        return Fail(Recode(SQLNoRowsAffected, f.lastInsertId.value));
      }
      var created := param.(id := id);
      return Ok(created);
    }

    method Update(param: Record<B>, f: WriteFaults) returns (r: Result<Record<B>>)
      requires Valid()
      modifies this
      ensures Valid()
      ensures r == UpdateIn(old(Snapshot()), param, f).result
      ensures Snapshot() == UpdateIn(old(Snapshot()), param, f).db
    {
      if f.begin.Some? {
        return Fail(Recode(SQLTxBegin, f.begin.value));
      }
      var staged := rows;
      var bindErr := BindError(schema.updateBinds, schema.fields);
      if bindErr.Some? {
        return Fail(Recode(SQLTxExec, bindErr.value));
      }
      if f.exec.Some? {
        return Fail(Recode(SQLTxExec, f.exec.value));
      }
      var num := 0;
      if param.id in staged {
        staged := staged[param.id := Updated(staged[param.id], param)];
        num := 1;
      }
      if f.rowsAffected.Some? {
        return Fail(Recode(SQLNoRowsAffected, f.rowsAffected.value));
      }
      if num < 1 {
        return Fail(Error(SQLNoRowsAffected, schema.noneUpdated));
      }
      if f.commit.Some? {
        return Fail(Recode(SQLTxCommit, f.commit.value));
      }
      rows := staged;
      return Ok(param);
    }

    method Delete(param: Record<B>, f: WriteFaults) returns (r: Result<Record<B>>)
      requires Valid()
      modifies this
      ensures Valid()
      ensures r == DeleteIn(old(Snapshot()), param, f).result
      ensures Snapshot() == DeleteIn(old(Snapshot()), param, f).db
    {
      if f.begin.Some? {
        return Fail(Recode(SQLTxBegin, f.begin.value));
      }
      var staged := rows;
      var bindErr := BindError(schema.deleteBinds, schema.fields);
      if bindErr.Some? {
        return Fail(Recode(SQLTxExec, bindErr.value));
      }
      if f.exec.Some? {
        return Fail(Recode(SQLTxExec, f.exec.value));
      }
      var num := 0;
      if param.id in staged {
        staged := staged[param.id := SoftDeleted(staged[param.id], param)];
        num := 1;
      }
      if f.rowsAffected.Some? {
        return Fail(Recode(SQLNoRowsAffected, f.rowsAffected.value));
      }
      if num < 1 {
        return Fail(Error(SQLNoRowsAffected, schema.noneDeleted));
      }
      if f.commit.Some? {
        return Fail(Recode(SQLTxCommit, f.commit.value));
      }
      rows := staged;
      return Ok(param);
    }
  }
}
