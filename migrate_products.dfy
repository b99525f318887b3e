/**
 * The product import (migrate_products.py): `migrate_products_from_csv`
 * reads the CSV rows one by one and inserts, updates or skips a product
 * by its `external_id`.
 *
 * A CSV row is the map `csv.DictReader` yields: a column missing from the
 * header is absent, a cell missing from a short row is `None`. The product
 * table is the sequence of its rows in insertion order, each an
 * `external_id` with the nine imported columns; the session's view is a
 * second sequence, the committed rows with pending updates applied and
 * pending inserts appended, which a commit writes to the table and a
 * rollback throws away. The session is created with `autoflush=False`
 * (src/database/user_db.py:21), so a query sees the committed rows only:
 * a product added since the last commit is not found, and the same id can
 * be inserted twice.
 */
module MigrateProducts {
  import opened Wrappers
  import opened Text

  /** A CSV row as `csv.DictReader` yields it. */
  type CsvRow = map<string, Option<string>>

  /** The nine imported columns of a product. */
  datatype Product = Product(
    description: Option<string>,
    price: Option<string>,
    imageUrl: Option<string>,
    colorHex: Option<string>,
    productUrl: Option<string>,
    colorName: Option<string>,
    detailDescription: Option<string>,
    category: Option<string>,
    personalColorType: Option<string>)

  /**
   * `row.get(key, '').strip() or None`: the trimmed cell, `None` when that
   * is empty or the column is missing, and a failure (`None.strip()`) for a
   * cell missing from a short row.
   */
  function Cell(row: CsvRow, key: string): (r: Result<Option<string>, string>)
    ensures r.Success? <==> key !in row || row[key].Some?
    ensures r.Success? && r.value.Some? ==> r.value.value != "" && IsTrimmed(r.value.value)
    ensures key in row && row[key].Some? && Trim(row[key].value) != "" ==> r == Success(Some(Trim(row[key].value)))
  {
    if key !in row then Success(None)
    else if row[key].None? then Failure("AttributeError")
    else
      var t := Trim(row[key].value);
      Success(if t == "" then None else Some(t))
  }

  /** The columns read from the row, in the order the source reads them. */
  const Columns: seq<string> := ["description", "price", "imageUrl", "colorHex", "productUrl",
                                 "colorName", "detailDescription", "type", "personalColorType"]

  /** The product a row describes, or the failure of its first unreadable cell. */
  function ProductOf(row: CsvRow): (r: Result<Product, string>)
    ensures r.Success? <==> forall k :: k in Columns ==> Cell(row, k).Success?
  {
    var d :- Cell(row, "description");
    var p :- Cell(row, "price");
    var i :- Cell(row, "imageUrl");
    var h :- Cell(row, "colorHex");
    var u :- Cell(row, "productUrl");
    var n :- Cell(row, "colorName");
    var dd :- Cell(row, "detailDescription");
    var t :- Cell(row, "type");
    var pc :- Cell(row, "personalColorType");
    Success(Product(d, p, i, h, u, n, dd, t, pc))
  }

  /** `int(row.get('id', 0))`: 0 without an `id` column, a failure for a missing cell or a non-integer. */
  function ExternalId(row: CsvRow): (r: Result<int, string>)
    ensures "id" !in row ==> r == Success(0)
    ensures "id" in row && row["id"].Some? && ParseInt(row["id"].value).Some? ==>
      r == Success(ParseInt(row["id"].value).value)
    ensures "id" in row && (row["id"].None? || ParseInt(row["id"].value).None?) ==> r.Failure?
  {
    if "id" !in row then Success(0)
    else if row["id"].None? then Failure("TypeError")
    else match ParseInt(row["id"].value)
      case None => Failure("ValueError")
      case Some(n) => Success(n)
  }

  /** The three counters the import returns. */
  datatype Counts = Counts(migrated: nat, updated: nat, skipped: nat)

  /** A row of the product table: its `external_id` and the imported columns. */
  datatype Record = Record(externalId: int, product: Product)

  /**
   * `db.query(Product).filter(Product.external_id == id).first()`: the
   * first row with that id, in table order, or none.
   */
  function Lookup(rows: seq<Record>, id: int): (r: Option<nat>)
    ensures r.Some? ==> r.value < |rows| && rows[r.value].externalId == id
    ensures r.Some? ==> forall j :: 0 <= j < r.value ==> rows[j].externalId != id
    ensures r.None? <==> forall j :: 0 <= j < |rows| ==> rows[j].externalId != id
    decreases |rows|
  {
    if rows == [] then None
    else if rows[0].externalId == id then Some(0)
    else
      match Lookup(rows[1..], id)
      case None => None
      case Some(k) => Some(k + 1)
  }

  /** The table as committed, the session's view of it, and the counters. */
  datatype State = State(committed: seq<Record>, working: seq<Record>, counts: Counts)

  /**
   * The session's view starts with the committed rows, in the same order
   * and with the same ids (an update changes only the imported columns),
   * and continues with the pending inserts.
   */
  predicate Consistent(s: State) {
    && |s.committed| <= |s.working|
    && forall k :: 0 <= k < |s.committed| ==> s.working[k].externalId == s.committed[k].externalId
  }

  /** `db.rollback()`: the session forgets everything since the last commit; the counters stay. */
  function RolledBack(s: State): State {
    State(s.committed, s.committed, s.counts)
  }

  /**
   * One row of the loop, with the commit after every fiftieth insert or
   * update. Whether the product exists is asked of the committed rows.
   */
  function Step(s: State, row: CsvRow, updateExisting: bool): State
    requires Consistent(s)
  {
    match ExternalId(row)
    case Failure(_) => RolledBack(s)
    case Success(id) =>
      match Lookup(s.committed, id)
      case Some(k) =>
        if updateExisting then
          match ProductOf(row)
          case Failure(_) => RolledBack(s)
          case Success(p) =>
            var w := s.working[k := Record(id, p)];
            var u := s.counts.updated + 1;
            State(if u % 50 == 0 then w else s.committed, w, s.counts.(updated := u))
        else
          s.(counts := s.counts.(skipped := s.counts.skipped + 1))
      case None =>
        match ProductOf(row)
        case Failure(_) => RolledBack(s)
        case Success(p) =>
          var w := s.working + [Record(id, p)];
          var m := s.counts.migrated + 1;
          State(if m % 50 == 0 then w else s.committed, w, s.counts.(migrated := m))
  }

  /** Every step keeps the session's view consistent with the table. */
  lemma StepConsistent(s: State, row: CsvRow, updateExisting: bool)
    requires Consistent(s)
    ensures Consistent(Step(s, row, updateExisting))
  {
  }

  /** The loop over the rows. */
  function Steps(s: State, rows: seq<CsvRow>, updateExisting: bool): State
    requires Consistent(s)
    decreases |rows|
  {
    StepConsistent(s, if rows == [] then map[] else rows[0], updateExisting);
    if rows == [] then s else Steps(Step(s, rows[0], updateExisting), rows[1..], updateExisting)
  }

  /**
   * A row changes at most one counter, by one: a row without a readable
   * integer id changes none and rolls back; an id already committed is
   * skipped without a change when updates are off; with updates on, a
   * well-formed row overwrites the first committed row with that id and
   * counts as updated; an id not committed, even one inserted since the
   * last commit, is inserted again from a well-formed row and counts as
   * migrated. A step either leaves the table alone or commits the view.
   */
  lemma StepSpec(s: State, row: CsvRow, updateExisting: bool)
    requires Consistent(s)
    ensures var n := Step(s, row, updateExisting);
      && Consistent(n)
      && (n.committed == s.committed || n.committed == n.working)
      && n.counts.migrated + n.counts.updated + n.counts.skipped
         <= s.counts.migrated + s.counts.updated + s.counts.skipped + 1
      && (ExternalId(row).Failure? ==> n.counts == s.counts && n.working == s.committed)
      && (ExternalId(row).Success? && Lookup(s.committed, ExternalId(row).value).Some? && !updateExisting ==>
            n == s.(counts := s.counts.(skipped := s.counts.skipped + 1)))
      && (ExternalId(row).Success? && Lookup(s.committed, ExternalId(row).value).Some? && updateExisting
          && ProductOf(row).Success? ==>
            n.working == s.working[Lookup(s.committed, ExternalId(row).value).value
                                   := Record(ExternalId(row).value, ProductOf(row).value)]
            && n.counts == s.counts.(updated := s.counts.updated + 1))
      && (ExternalId(row).Success? && Lookup(s.committed, ExternalId(row).value).None? && ProductOf(row).Success? ==>
            n.working == s.working + [Record(ExternalId(row).value, ProductOf(row).value)]
            && n.counts == s.counts.(migrated := s.counts.migrated + 1))
  {
  }

  /**
   * Over all rows: every row adds at most one to the counters; nothing is
   * updated when updates are off, and nothing is skipped when they are on.
   */
  lemma {:induction false} StepsCounts(s: State, rows: seq<CsvRow>, updateExisting: bool)
    requires Consistent(s)
    ensures var n := Steps(s, rows, updateExisting);
      && Consistent(n)
      && n.counts.migrated + n.counts.updated + n.counts.skipped
         <= s.counts.migrated + s.counts.updated + s.counts.skipped + |rows|
      && n.counts.migrated >= s.counts.migrated
      && (!updateExisting ==> n.counts.updated == s.counts.updated)
      && (updateExisting ==> n.counts.skipped == s.counts.skipped)
    decreases |rows|
  {
    if rows != [] {
      StepSpec(s, rows[0], updateExisting);
      StepsCounts(Step(s, rows[0], updateExisting), rows[1..], updateExisting);
    }
  }

  /**
   * The query does not see a product added since the last commit: two rows
   * with the same id in one batch are both inserted and both counted.
   */
  lemma DuplicateIdInsertedTwice()
    ensures var rows: seq<CsvRow> := [map["id" := Some("1")], map["id" := Some("1")]];
      var final := Steps(State([], [], Counts(0, 0, 0)), rows, false);
      && final.counts == Counts(2, 0, 0)
      && |final.working| == 2 && final.working[0].externalId == 1 && final.working[1].externalId == 1
  {
    var good: CsvRow := map["id" := Some("1")];
    ParseIntToString(1);
    assert IntToString(1) == "1";
    assert ExternalId(good) == Success(1);
    var empty := Product(None, None, None, None, None, None, None, None, None);
    assert ProductOf(good) == Success(empty);
    var rows: seq<CsvRow> := [good, good];
    var first := Step(State([], [], Counts(0, 0, 0)), good, false);
    assert first == State([], [Record(1, empty)], Counts(1, 0, 0));
    assert rows[1..] == [good];
  }

  /** The product table. */
  class ProductTable {
    var rows: seq<Record>

    constructor(rows: seq<Record>)
      ensures this.rows == rows
    {
      this.rows := rows;
    }
  }

  /** Why the import stops before reading any row. */
  datatype MigrationError = FileNotFound

  /**
   * `migrate_products_from_csv`: a missing file fails before the table is
   * touched; otherwise the table is cleared first when asked, the rows are
   * processed in order, and the final commit stores the session's view.
   */
  method MigrateProductsFromCsv(csv: Option<seq<CsvRow>>, table: ProductTable, updateExisting: bool, clearFirst: bool)
      returns (r: Result<Counts, MigrationError>)
    modifies table
    ensures csv.None? ==> r == Failure(FileNotFound) && table.rows == old(table.rows)
    ensures csv.Some? ==>
      var start := if clearFirst then [] else old(table.rows);
      var final := Steps(State(start, start, Counts(0, 0, 0)), csv.value, updateExisting);
      r == Success(final.counts) && table.rows == final.working
  {
    if csv.None? {
      return Failure(FileNotFound);
    }
    var rows := csv.value;
    if clearFirst {
      table.rows := [];
    }
    var session := table.rows;
    var counts := Counts(0, 0, 0);
    ghost var start := table.rows;
    var i := 0;
    while i < |rows|
      invariant 0 <= i <= |rows|
      invariant Consistent(State(table.rows, session, counts))
      invariant Steps(State(table.rows, session, counts), rows[i..], updateExisting)
             == Steps(State(start, start, Counts(0, 0, 0)), rows, updateExisting)
    {
      assert rows[i..][1..] == rows[i + 1..];
      StepConsistent(State(table.rows, session, counts), rows[i], updateExisting);
      session, counts := ProcessRow(table, session, counts, rows[i], updateExisting);
      i := i + 1;
    }
    table.rows := session;
    r := Success(counts);
  }

  /** The body of the loop for one row. */
  method ProcessRow(table: ProductTable, session: seq<Record>, counts: Counts, row: CsvRow, updateExisting: bool)
      returns (session': seq<Record>, counts': Counts)
    requires Consistent(State(table.rows, session, counts))
    modifies table
    ensures State(table.rows, session', counts')
         == Step(State(old(table.rows), session, counts), row, updateExisting)
  {
    session', counts' := session, counts;
    var externalId := ExternalId(row);
    if externalId.Failure? {
      session' := table.rows;
      return;
    }
    var id := externalId.value;
    var existing := Lookup(table.rows, id);
    if existing.Some? {
      if updateExisting {
        var product := ProductOf(row);
        if product.Failure? {
          session' := table.rows;
          return;
        }
        session' := session[existing.value := Record(id, product.value)];
        counts' := counts.(updated := counts.updated + 1);
        if counts'.updated % 50 == 0 {
          table.rows := session';
        }
      } else {
        counts' := counts.(skipped := counts.skipped + 1);
      }
      return;
    }
    var product := ProductOf(row);
    if product.Failure? {
      session' := table.rows;
      return;
    }
    session' := session + [Record(id, product.value)];
    counts' := counts.(migrated := counts.migrated + 1);
    if counts'.migrated % 50 == 0 {
      table.rows := session';
    }
  }

  // ---------------------------------------------------------------------
  // Counters that outlive a rollback

  /**
   * The rollback after a failed row throws away every insert since the
   * last commit, but `migrated_count` keeps counting them: a new product
   * followed by a row whose id is not a number reports one product
   * migrated into a table that stays empty.
   */
  lemma RollbackLosesCountedRows()
    ensures var rows: seq<CsvRow> := [map["id" := Some("1")], map["id" := Some("x")]];
      var final := Steps(State([], [], Counts(0, 0, 0)), rows, false);
      final.counts.migrated == 1 && final.working == []
  {
    var good: CsvRow := map["id" := Some("1")];
    var bad: CsvRow := map["id" := Some("x")];
    ParseIntToString(1);
    assert IntToString(1) == "1";
    assert ExternalId(good) == Success(1);
    assert ProductOf(good) == Success(Product(None, None, None, None, None, None, None, None, None));
    TrimOfTrimmed("x");
    assert !IsDigit("x"[0]);
    assert ExternalId(bad).Failure?;
    var rows: seq<CsvRow> := [good, bad];
    assert rows[1..] == [bad];
  }

  /**
   * The intended row step: a failed row is rolled back to a savepoint
   * taken before it, so it changes nothing, and the work of earlier rows
   * stays.
   */
  function SavepointStep(s: State, row: CsvRow, updateExisting: bool): State
    requires Consistent(s)
  {
    match ExternalId(row)
    case Failure(_) => s
    case Success(id) =>
      match ProductOf(row)
      case Failure(_) => if Lookup(s.committed, id).Some? && !updateExisting then Step(s, row, updateExisting) else s
      case Success(_) => Step(s, row, updateExisting)
  }

  function SavepointSteps(s: State, rows: seq<CsvRow>, updateExisting: bool): State
    requires Consistent(s)
    decreases |rows|
  {
    if rows == [] then s
    else
      StepConsistent(s, rows[0], updateExisting);
      SavepointSteps(SavepointStep(s, rows[0], updateExisting), rows[1..], updateExisting)
  }

  /**
   * With per-row savepoints the counters describe the table: the rows the
   * session held before stay, with their ids, and exactly as many rows are
   * added as the migrated count grows.
   */
  lemma {:induction false} SavepointCountsAdded(s: State, rows: seq<CsvRow>, updateExisting: bool)
    requires Consistent(s)
    ensures var n := SavepointSteps(s, rows, updateExisting);
      && Consistent(n)
      && n.counts.migrated >= s.counts.migrated
      && |n.working| == |s.working| + n.counts.migrated - s.counts.migrated
      && forall k :: 0 <= k < |s.working| ==> n.working[k].externalId == s.working[k].externalId
    decreases |rows|
  {
    if rows != [] {
      StepConsistent(s, rows[0], updateExisting);
      var next := SavepointStep(s, rows[0], updateExisting);
      StepSpec(s, rows[0], updateExisting);
      assert |next.working| == |s.working| + next.counts.migrated - s.counts.migrated;
      assert forall k :: 0 <= k < |s.working| ==> next.working[k].externalId == s.working[k].externalId;
      SavepointCountsAdded(next, rows[1..], updateExisting);
    }
  }
}
