/**
 * Catalogue queries (src/database/db.py): the sheet is a sequence of rows,
 * of which the model keeps the two columns the queries filter on; the
 * fetch from Google Sheets is not modelled.
 */
module Db {
  import opened Wrappers

  /** A catalogue row: its `PersonalColorType` and `Type` columns. */
  datatype Row = Row(personalColorType: string, category: string)

  /** A boolean mask over the rows. */
  datatype Mask = SeasonIs(season: string) | CategoryIs(category: string) | Both(season: string, category: string)

  predicate Keeps(m: Mask, x: Row) {
    match m
    case SeasonIs(s) => x.personalColorType == s
    case CategoryIs(c) => x.category == c
    case Both(s, c) => x.personalColorType == s && x.category == c
  }

  /** `df.loc[mask]`: the rows the mask keeps, in sheet order. */
  function Filter(rows: seq<Row>, m: Mask): (r: seq<Row>)
    ensures |r| <= |rows|
  {
    if rows == [] then [] else (if Keeps(m, rows[0]) then [rows[0]] else []) + Filter(rows[1..], m)
  }

  /** Filtering keeps exactly the matching rows, each as often as it occurs. */
  lemma {:induction false} FilterCounts(rows: seq<Row>, m: Mask)
    ensures forall x :: multiset(Filter(rows, m))[x] == if Keeps(m, x) then multiset(rows)[x] else 0
  {
    if rows != [] {
      FilterCounts(rows[1..], m);
      assert rows == [rows[0]] + rows[1..];
    }
  }

  /** Filtering a row followed by more rows: the row if the mask keeps it, then the filtered rest. */
  lemma FilterCons(x: Row, rows: seq<Row>, m: Mask)
    ensures Filter([x] + rows, m) == (if Keeps(m, x) then [x] else []) + Filter(rows, m)
  {
    assert ([x] + rows)[1..] == rows;
  }

  /** Filtering keeps sheet order: the filter of a concatenation is the concatenation of the filters. */
  lemma {:induction false} FilterAppend(rows: seq<Row>, more: seq<Row>, m: Mask)
    ensures Filter(rows + more, m) == Filter(rows, m) + Filter(more, m)
  {
    if rows == [] {
      assert rows + more == more;
    } else {
      var x, tail := rows[0], rows[1..];
      assert rows == [x] + tail;
      assert rows + more == [x] + (tail + more);
      FilterCons(x, tail + more, m);
      FilterCons(x, tail, m);
      FilterAppend(tail, more, m);
      var head := if Keeps(m, x) then [x] else [];
      assert head + (Filter(tail, m) + Filter(more, m)) == (head + Filter(tail, m)) + Filter(more, m);
    }
  }

  /** Filtering twice is filtering once with both conditions. */
  lemma {:induction false} FilterTwice(rows: seq<Row>, first: Mask, second: Mask, both: Mask)
    requires forall x :: Keeps(both, x) == (Keeps(first, x) && Keeps(second, x))
    ensures Filter(Filter(rows, first), second) == Filter(rows, both)
  {
    if rows != [] {
      var x, tail := rows[0], rows[1..];
      assert rows == [x] + tail;
      FilterTwice(tail, first, second, both);
      FilterCons(x, tail, first);
      FilterCons(x, tail, both);
      if Keeps(first, x) {
        FilterCons(x, Filter(tail, first), second);
      } else {
        assert Filter(rows, first) == Filter(tail, first);
      }
    }
  }

  /** Membership in a filter's result: a sheet row the mask keeps. */
  lemma FilterMembers(rows: seq<Row>, m: Mask)
    ensures forall x :: x in Filter(rows, m) <==> x in rows && Keeps(m, x)
  {
    FilterCounts(rows, m);
    assert forall x :: x in rows <==> multiset(rows)[x] > 0;
    assert forall x :: x in Filter(rows, m) <==> multiset(Filter(rows, m))[x] > 0;
  }

  /**
   * A pandas `KeyError` on a missing column. A sheet without data rows
   * gives `get_all_records() == []`, and `pd.DataFrame([])` has no columns
   * at all, so the first column it is asked for raises.
   */
  datatype QueryError = KeyError(column: string)

  const SeasonColumn := "PersonalColorType"
  const CategoryColumn := "Type"

  /**
   * `get_outfit_by_season`: exactly the rows of that colour type, in sheet
   * order; a sheet without rows raises `KeyError` on the column.
   */
  function OutfitsBySeason(rows: seq<Row>, season: string): (r: Result<seq<Row>, QueryError>)
    ensures r.Failure? <==> rows == []
    ensures r.Failure? ==> r.error == KeyError(SeasonColumn)
    ensures r.Success? ==> forall x :: x in r.value <==> x in rows && x.personalColorType == season
  {
    if rows == [] then Failure(KeyError(SeasonColumn))
    else
      FilterMembers(rows, SeasonIs(season));
      Success(Filter(rows, SeasonIs(season)))
  }

  /**
   * `get_outfit_by_category`: exactly the rows of that category, in sheet
   * order; a sheet without rows raises `KeyError` on the column.
   */
  function OutfitsByCategory(rows: seq<Row>, category: string): (r: Result<seq<Row>, QueryError>)
    ensures r.Failure? <==> rows == []
    ensures r.Failure? ==> r.error == KeyError(CategoryColumn)
    ensures r.Success? ==> forall x :: x in r.value <==> x in rows && x.category == category
  {
    if rows == [] then Failure(KeyError(CategoryColumn))
    else
      FilterMembers(rows, CategoryIs(category));
      Success(Filter(rows, CategoryIs(category)))
  }

  /**
   * `get_outfit_by_season_and_category`: nothing unless both are given;
   * the three successive filters of the source, of which the last repeats
   * the first two. A filter that leaves no row keeps the frame's columns,
   * so only a sheet without rows can raise, at the first filter applied.
   */
  function OutfitsBySeasonAndCategory(rows: seq<Row>, season: Option<string>, category: Option<string>): Result<seq<Row>, QueryError> {
    if rows == [] && season.Some? then Failure(KeyError(SeasonColumn))
    else if rows == [] && category.Some? then Failure(KeyError(CategoryColumn))
    else
      var bySeason := if season.Some? then Filter(rows, SeasonIs(season.value)) else rows;
      var byBoth := if category.Some? then Filter(bySeason, CategoryIs(category.value)) else bySeason;
      if season.Some? && category.Some? then Success(Filter(byBoth, Both(season.value, category.value))) else Success([])
  }

  /**
   * A sheet without rows raises on the first column a given filter reads;
   * otherwise, with one of the two missing the answer is empty, even when
   * the other is given, and with both it is the rows matching both, in
   * sheet order: the category filter applied to the season query.
   */
  lemma SeasonAndCategory(rows: seq<Row>, season: Option<string>, category: Option<string>)
    ensures rows == [] && season.Some? ==> OutfitsBySeasonAndCategory(rows, season, category) == Failure(KeyError(SeasonColumn))
    ensures rows == [] && season.None? && category.Some? ==>
      OutfitsBySeasonAndCategory(rows, season, category) == Failure(KeyError(CategoryColumn))
    ensures rows == [] && season.None? && category.None? ==> OutfitsBySeasonAndCategory(rows, season, category) == Success([])
    ensures rows != [] && (season.None? || category.None?) ==> OutfitsBySeasonAndCategory(rows, season, category) == Success([])
    ensures rows != [] && season.Some? && category.Some? ==>
      && OutfitsBySeasonAndCategory(rows, season, category) == Success(Filter(rows, Both(season.value, category.value)))
      && OutfitsBySeasonAndCategory(rows, season, category)
         == Success(Filter(OutfitsBySeason(rows, season.value).value, CategoryIs(category.value)))
  {
    if rows != [] && season.Some? && category.Some? {
      var s, c := season.value, category.value;
      FilterTwice(rows, SeasonIs(s), CategoryIs(c), Both(s, c));
      FilterTwice(rows, Both(s, c), Both(s, c), Both(s, c));
    }
  }
}
