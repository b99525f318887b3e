/**
 * The validation of the colour analysis (validation/validate_model.py):
 * the mapping of the twelve detailed colour types to the four seasons of
 * the data set, the rule that reads the ground-truth label of a CSV row,
 * and the confusion matrix and per-class metrics of `calculate_metrics`.
 *
 * The HTTP calls, file reading, plotting and printing are not modelled;
 * the CSV rows are given as the cells the function reads.
 */
module ValidateModel {
  import opened Wrappers
  import opened Text

  // ---------------------------------------------------------------------
  // Season names

  /** The keys of `SEASON_MAPPING`. */
  datatype Key =
    | WarmSpringKey | BrightSpringKey | LightSpringKey | ClearSpringKey
    | TrueSpringKey | SpringKey | LightSummerKey | TrueSummerKey
    | SoftSummerKey | CoolSummerKey | MutedSummerKey | SummerKey
    | WarmAutumnKey | DeepAutumnKey | SoftAutumnKey | TrueAutumnKey
    | MutedAutumnKey | WarmFallKey | DeepFallKey | SoftFallKey
    | AutumnKey | FallKey | CoolWinterKey | BrightWinterKey
    | DeepWinterKey | ClearWinterKey | TrueWinterKey | WinterKey

  /** The text of a key. */
  function KeyText(k: Key): string {
    match k
    case WarmSpringKey => "warm spring"
    case BrightSpringKey => "bright spring"
    case LightSpringKey => "light spring"
    case ClearSpringKey => "clear spring"
    case TrueSpringKey => "true spring"
    case SpringKey => "spring"
    case LightSummerKey => "light summer"
    case TrueSummerKey => "true summer"
    case SoftSummerKey => "soft summer"
    case CoolSummerKey => "cool summer"
    case MutedSummerKey => "muted summer"
    case SummerKey => "summer"
    case WarmAutumnKey => "warm autumn"
    case DeepAutumnKey => "deep autumn"
    case SoftAutumnKey => "soft autumn"
    case TrueAutumnKey => "true autumn"
    case MutedAutumnKey => "muted autumn"
    case WarmFallKey => "warm fall"
    case DeepFallKey => "deep fall"
    case SoftFallKey => "soft fall"
    case AutumnKey => "autumn"
    case FallKey => "fall"
    case CoolWinterKey => "cool winter"
    case BrightWinterKey => "bright winter"
    case DeepWinterKey => "deep winter"
    case ClearWinterKey => "clear winter"
    case TrueWinterKey => "true winter"
    case WinterKey => "winter"
  }

  /** The season a key maps to. */
  function KeySeason(k: Key): string {
    match k
    case WarmSpringKey | BrightSpringKey | LightSpringKey | ClearSpringKey | TrueSpringKey | SpringKey => "spring"
    case LightSummerKey | TrueSummerKey | SoftSummerKey | CoolSummerKey | MutedSummerKey | SummerKey => "summer"
    case WarmAutumnKey | DeepAutumnKey | SoftAutumnKey | TrueAutumnKey | MutedAutumnKey | WarmFallKey | DeepFallKey | SoftFallKey | AutumnKey | FallKey => "fall"
    case CoolWinterKey | BrightWinterKey | DeepWinterKey | ClearWinterKey | TrueWinterKey | WinterKey => "winter"
  }

  /** The keys of `SEASON_MAPPING` in declaration order. */
  const SeasonKeys: seq<Key> := [
    WarmSpringKey, BrightSpringKey, LightSpringKey, ClearSpringKey,
    TrueSpringKey, SpringKey, LightSummerKey, TrueSummerKey,
    SoftSummerKey, CoolSummerKey, MutedSummerKey, SummerKey,
    WarmAutumnKey, DeepAutumnKey, SoftAutumnKey, TrueAutumnKey,
    MutedAutumnKey, WarmFallKey, DeepFallKey, SoftFallKey,
    AutumnKey, FallKey, CoolWinterKey, BrightWinterKey,
    DeepWinterKey, ClearWinterKey, TrueWinterKey, WinterKey
  ]

  /** The names of the four seasons. */
  predicate IsSeasonName(s: string) {
    s == "spring" || s == "summer" || s == "fall" || s == "winter"
  }

  /** `SEASON_MAPPING[key]` when the key is present. */
  function Lookup(keys: seq<Key>, text: string): (r: Option<string>)
    ensures r.Some? <==> exists i :: 0 <= i < |keys| && KeyText(keys[i]) == text
    ensures r.Some? ==> exists i :: 0 <= i < |keys| && KeyText(keys[i]) == text && KeySeason(keys[i]) == r.value
  {
    if keys == [] then None
    else if KeyText(keys[0]) == text then Some(KeySeason(keys[0]))
    else Lookup(keys[1..], text)
  }

  /** The loop over the keys: the season of the first key that occurs in `s`. */
  function FirstContained(keys: seq<Key>, s: string): (r: Option<string>)
    ensures r.Some? ==> exists i :: (0 <= i < |keys| && Contains(s, KeyText(keys[i])) && KeySeason(keys[i]) == r.value
      && forall j :: 0 <= j < i ==> !Contains(s, KeyText(keys[j])))
    ensures r.None? ==> forall i :: 0 <= i < |keys| ==> !Contains(s, KeyText(keys[i]))
  {
    if keys == [] then None
    else if Contains(s, KeyText(keys[0])) then Some(KeySeason(keys[0]))
    else
      var r := FirstContained(keys[1..], s);
      assert r.Some? ==> exists i :: (1 <= i < |keys| && Contains(s, KeyText(keys[i])) && KeySeason(keys[i]) == r.value
        && forall j :: 0 <= j < i ==> !Contains(s, KeyText(keys[j])));
      r
  }

  /** `normalize_season` once the name is lowered and trimmed. */
  function NormalizeLowered(seasonLower: string): string {
    match Lookup(SeasonKeys, seasonLower)
    case Some(v) => v
    case None =>
      match FirstContained(SeasonKeys, seasonLower)
      case Some(v) => v
      case None =>
        if Contains(seasonLower, "spring") then "spring"
        else if Contains(seasonLower, "summer") then "summer"
        else if Contains(seasonLower, "autumn") || Contains(seasonLower, "fall") then "fall"
        else if Contains(seasonLower, "winter") then "winter"
        else seasonLower
  }

  /** `normalize_season`. */
  function NormalizeSeason(seasonStr: string): string {
    NormalizeLowered(Trim(Lower(seasonStr)))
  }

  /** Every key maps to a season name. */
  lemma KeySeasons(k: Key)
    ensures IsSeasonName(KeySeason(k))
  {
  }

  /**
   * The result is a season name, or else the lowered and trimmed input
   * itself, which happens exactly when no key of the mapping occurs in it;
   * the checks for the bare season words after the loop can never decide
   * anything, because those words are keys themselves.
   */
  lemma NormalizeLoweredSpec(seasonLower: string)
    ensures var r := NormalizeLowered(seasonLower);
      && (IsSeasonName(r) || r == seasonLower)
      && (!IsSeasonName(r) ==> forall k :: k in SeasonKeys ==> !Contains(seasonLower, KeyText(k)))
      && ((forall k :: k in SeasonKeys ==> !Contains(seasonLower, KeyText(k))) ==> r == seasonLower)
  {
    var exact := Lookup(SeasonKeys, seasonLower);
    var first := FirstContained(SeasonKeys, seasonLower);
    if exact.Some? {
      ExactMatch(seasonLower);
      var i :| 0 <= i < |SeasonKeys| && KeyText(SeasonKeys[i]) == seasonLower && KeySeason(SeasonKeys[i]) == exact.value;
      KeySeasons(SeasonKeys[i]);
      ContainsInfix([], seasonLower, []);
      assert [] + seasonLower + [] == seasonLower;
    } else if first.Some? {
      ContainedMatch(seasonLower);
      var i :| 0 <= i < |SeasonKeys| && Contains(seasonLower, KeyText(SeasonKeys[i])) && KeySeason(SeasonKeys[i]) == first.value;
      KeySeasons(SeasonKeys[i]);
    } else {
      NoMatch(seasonLower);
    }
  }

  /** Without an exact match, the first contained key decides the result. */
  lemma ContainedMatch(s: string)
    requires Lookup(SeasonKeys, s).None? && FirstContained(SeasonKeys, s).Some?
    ensures NormalizeLowered(s) == FirstContained(SeasonKeys, s).value
  {
  }

  /**
   * Without any key in the name, the name is returned as it is: the bare
   * season words tested after the loop are keys themselves.
   */
  lemma NoMatch(s: string)
    requires Lookup(SeasonKeys, s).None? && FirstContained(SeasonKeys, s).None?
    ensures NormalizeLowered(s) == s
  {
    BareWordsAreKeys();
    assert !Contains(s, "spring") && !Contains(s, "summer");
    assert !Contains(s, "autumn") && !Contains(s, "fall") && !Contains(s, "winter");
  }

  /** The bare season words are among the keys. */
  lemma BareWordsAreKeys()
    ensures KeyText(SeasonKeys[5]) == "spring" && KeyText(SeasonKeys[11]) == "summer"
    ensures KeyText(SeasonKeys[20]) == "autumn" && KeyText(SeasonKeys[21]) == "fall"
    ensures KeyText(SeasonKeys[27]) == "winter"
  {
    assert SeasonKeys[5] == SpringKey && SeasonKeys[11] == SummerKey;
    assert SeasonKeys[20] == AutumnKey && SeasonKeys[21] == FallKey && SeasonKeys[27] == WinterKey;
  }

  /**
   * Normalising a normalised name changes nothing: a season name maps to
   * itself, and a name returned as it is is already lowered and trimmed
   * and contains no key.
   */
  lemma NormalizeIdempotent(seasonStr: string)
    ensures NormalizeSeason(NormalizeSeason(seasonStr)) == NormalizeSeason(seasonStr)
  {
    var t := Trim(Lower(seasonStr));
    var r := NormalizeLowered(t);
    NormalizeLoweredSpec(t);
    if IsSeasonName(r) {
      SeasonNameNormal(r);
    } else {
      LoweredTrimmedIsNormal(seasonStr);
    }
  }

  /** A season name lowers and trims to itself and is its own key. */
  lemma SeasonNameNormal(s: string)
    requires IsSeasonName(s)
    ensures NormalizeSeason(s) == s
  {
    SeasonNameLowered(s);
    var i := SeasonNameKey(s);
    LookupFinds(SeasonKeys, s, i);
    ExactMatch(s);
  }

  lemma SeasonNameLowered(s: string)
    requires IsSeasonName(s)
    ensures Trim(Lower(s)) == s
  {
    assert forall i :: 0 <= i < |s| ==> 'a' <= s[i] <= 'z';
    assert Lower(s) == s;
    TrimOfTrimmed(s);
  }

  /** Each season name is the text of one of the keys. */
  lemma SeasonNameKey(s: string) returns (i: nat)
    requires IsSeasonName(s)
    ensures i < |SeasonKeys| && KeyText(SeasonKeys[i]) == s
  {
    i := if s == "spring" then 5 else if s == "summer" then 11 else if s == "fall" then 21 else 27;
  }

  /** An exact match decides the result. */
  lemma ExactMatch(s: string)
    requires Lookup(SeasonKeys, s).Some?
    ensures NormalizeLowered(s) == Lookup(SeasonKeys, s).value
  {
  }

  /** A season name that is the text of some key is found with itself as its value. */
  lemma {:induction false} LookupFinds(keys: seq<Key>, s: string, i: nat)
    requires IsSeasonName(s) && i < |keys| && KeyText(keys[i]) == s
    ensures Lookup(keys, s) == Some(s)
  {
    if KeyText(keys[0]) == s {
      KeyTextSeason(keys[0]);
    } else {
      LookupFinds(keys[1..], s, i - 1);
    }
  }

  /** A key whose text is a season name maps to that season. */
  lemma KeyTextSeason(k: Key)
    requires IsSeasonName(KeyText(k))
    ensures KeySeason(k) == KeyText(k)
  {
  }

  /** Lowering changes no character of the text. */
  predicate IsLowered(s: string) {
    forall i :: 0 <= i < |s| ==> LowerChar(s[i]) == s[i]
  }

  lemma LowerIsLowered(s: string)
    ensures IsLowered(Lower(s))
  {
    forall i | 0 <= i < |s|
      ensures LowerChar(LowerChar(s[i])) == LowerChar(s[i])
    {
    }
  }

  lemma TrimKeepsLowered(s: string)
    requires IsLowered(s)
    ensures IsLowered(Trim(s))
  {
    var start := TrimStart(s);
    TrimStartIsSuffix(s);
    assert IsLowered(start);
    TrimEndIsPrefix(start);
    assert IsLowered(TrimEnd(start));
  }

  /** The lowered and trimmed text lowers and trims to itself. */
  lemma LoweredTrimmedIsNormal(seasonStr: string)
    ensures Trim(Lower(Trim(Lower(seasonStr)))) == Trim(Lower(seasonStr))
  {
    var t := Trim(Lower(seasonStr));
    LowerIsLowered(seasonStr);
    TrimKeepsLowered(Lower(seasonStr));
    assert Lower(t) == t;
    TrimOfTrimmed(t);
  }

  // ---------------------------------------------------------------------
  // Ground truth

  /** The four classes of the data set. */
  datatype Season = Fall | Spring | Summer | Winter

  /** The classes in the order the source checks and reports them. */
  const Seasons: seq<Season> := [Fall, Spring, Summer, Winter]

  function Name(s: Season): string {
    match s
    case Fall => "fall"
    case Spring => "spring"
    case Summer => "summer"
    case Winter => "winter"
  }

  /**
   * A cell of `_classes.csv` as `csv.DictReader` yields it: the column is
   * missing from the header, the row is too short to reach it (None), or
   * it holds text.
   */
  datatype Cell = NoColumn | NoCell | Value(text: string)

  /** The cells of a row that `load_ground_truth` reads. */
  datatype ClassRow = ClassRow(filename: Cell, fall: Cell, spring: Cell, summer: Cell, winter: Cell)

  /** `row[key].strip()`: a missing column fails with KeyError, a missing cell with AttributeError. */
  function Stripped(c: Cell): (r: Result<string, string>)
    ensures r.Success? <==> c.Value?
  {
    match c
    case NoColumn => Failure("KeyError")
    case NoCell => Failure("AttributeError")
    case Value(t) => Success(Trim(t))
  }

  /** The cell of the column `f' {season}'`. */
  function ColumnOf(row: ClassRow, s: Season): Cell {
    match s
    case Fall => row.fall
    case Spring => row.spring
    case Summer => row.summer
    case Winter => row.winter
  }

  /** The class's column trims to "1". */
  predicate Marked(row: ClassRow, s: Season) {
    Stripped(ColumnOf(row, s)) == Success("1")
  }

  /** The class's column is readable and does not trim to "1". */
  predicate Unmarked(row: ClassRow, s: Season) {
    Stripped(ColumnOf(row, s)).Success? && Stripped(ColumnOf(row, s)).value != "1"
  }

  /**
   * The inner loop of `load_ground_truth` over the given seasons: the first
   * whose column trims to "1", or none; a missing column fails only once
   * the loop reaches it.
   */
  function LabelFrom(row: ClassRow, seasons: seq<Season>): (r: Result<Option<Season>, string>)
    ensures r.Success? && r.value.Some? ==> r.value.value in seasons
  {
    if seasons == [] then Success(None)
    else
      var cell :- Stripped(ColumnOf(row, seasons[0]));
      if cell == "1" then Success(Some(seasons[0])) else LabelFrom(row, seasons[1..])
  }

  /** One step of the inner loop: the first class decides, fails, or passes on to the rest. */
  lemma LabelStep(row: ClassRow, seasons: seq<Season>)
    requires seasons != []
    ensures LabelFrom(row, seasons)
      == if Marked(row, seasons[0]) then Success(Some(seasons[0]))
         else if Unmarked(row, seasons[0]) then LabelFrom(row, seasons[1..])
         else Failure(Stripped(ColumnOf(row, seasons[0])).error)
  {
  }

  /** Position `i` holds a class whose column trims to "1", every column before it being readable and not "1". */
  predicate FirstMarked(row: ClassRow, seasons: seq<Season>, i: int) {
    0 <= i < |seasons| && Marked(row, seasons[i]) && forall j :: 0 <= j < i ==> Unmarked(row, seasons[j])
  }

  lemma FirstMarkedShift(row: ClassRow, seasons: seq<Season>, i: int)
    requires seasons != [] && Unmarked(row, seasons[0]) && FirstMarked(row, seasons[1..], i)
    ensures FirstMarked(row, seasons, i + 1)
  {
    forall j | 0 <= j < i + 1
      ensures Unmarked(row, seasons[j])
    {
      if j > 0 {
        assert seasons[j] == seasons[1..][j - 1];
      }
    }
  }

  /**
   * The label of a row is the first class, in the order of the list, whose
   * column trims to "1", every column before it being readable.
   */
  lemma {:induction false} LabelFound(row: ClassRow, seasons: seq<Season>, x: Season)
    requires LabelFrom(row, seasons) == Success(Some(x))
    ensures exists i :: FirstMarked(row, seasons, i) && seasons[i] == x
  {
    LabelStep(row, seasons);
    if Marked(row, seasons[0]) {
      assert FirstMarked(row, seasons, 0);
    } else {
      LabelFound(row, seasons[1..], x);
      var i :| FirstMarked(row, seasons[1..], i) && seasons[1..][i] == x;
      FirstMarkedShift(row, seasons, i);
      assert seasons[i + 1] == x;
    }
  }

  /** A row has no label exactly when every class column is readable and none trims to "1". */
  lemma {:induction false} LabelNone(row: ClassRow, seasons: seq<Season>)
    ensures LabelFrom(row, seasons) == Success(None) <==> forall i :: 0 <= i < |seasons| ==> Unmarked(row, seasons[i])
  {
    if seasons != [] {
      LabelStep(row, seasons);
      LabelNone(row, seasons[1..]);
      assert forall i :: 1 <= i < |seasons| ==> seasons[i] == seasons[1..][i - 1];
    }
  }

  /** The entry a row contributes: its trimmed file name and its label, if it has one. */
  function RowEntry(row: ClassRow): Result<Option<(string, Season)>, string> {
    var filename :- Stripped(row.filename);
    var found :- LabelFrom(row, Seasons);
    Success(if found.Some? then Some((filename, found.value)) else None)
  }

  /** The entries of the rows, each or the failure of its row. */
  function RowEntries(rows: seq<ClassRow>): seq<Result<Option<(string, Season)>, string>>
    decreases |rows|
  {
    if rows == [] then [] else RowEntries(rows[..|rows| - 1]) + [RowEntry(rows[|rows| - 1])]
  }

  lemma {:induction false} RowEntriesSpec(rows: seq<ClassRow>)
    ensures |RowEntries(rows)| == |rows|
    ensures forall i :: 0 <= i < |rows| ==> RowEntries(rows)[i] == RowEntry(rows[i])
    decreases |rows|
  {
    if rows != [] {
      var init := rows[..|rows| - 1];
      RowEntriesSpec(init);
      var before := RowEntries(init);
      assert RowEntries(rows) == before + [RowEntry(rows[|rows| - 1])];
      forall i | 0 <= i < |init|
        ensures RowEntries(rows)[i] == RowEntry(rows[i])
      {
        assert rows[i] == init[i];
        assert RowEntries(rows)[i] == before[i];
      }
    }
  }

  /** The values of the results in order, or the failure of the first one that failed. */
  function Collect<T>(results: seq<Result<T, string>>): (r: Result<seq<T>, string>)
    ensures r.Success? ==> |r.value| == |results|
    decreases |results|
  {
    if results == [] then Success([])
    else
      var before :- Collect(results[..|results| - 1]);
      var last :- results[|results| - 1];
      Success(before + [last])
  }

  /** Collecting succeeds exactly when every result does, and then keeps each value in place. */
  lemma {:induction false} CollectSpec<T>(results: seq<Result<T, string>>)
    ensures Collect(results).Success? <==> forall i :: 0 <= i < |results| ==> results[i].Success?
    ensures Collect(results).Success? ==> forall i :: 0 <= i < |results| ==> results[i] == Success(Collect(results).value[i])
    decreases |results|
  {
    if results != [] {
      var init := results[..|results| - 1];
      CollectSpec(init);
      assert forall i :: 0 <= i < |init| ==> results[i] == init[i];
    }
  }

  /** The entries of the rows, or the failure of the first row that cannot be read. */
  function Entries(rows: seq<ClassRow>): Result<seq<Option<(string, Season)>>, string> {
    Collect(RowEntries(rows))
  }

  /**
   * The load succeeds exactly when every row can be read, and then each
   * row contributes its own entry.
   */
  lemma EntriesSpec(rows: seq<ClassRow>)
    ensures Entries(rows).Success? <==> forall i :: 0 <= i < |rows| ==> RowEntry(rows[i]).Success?
    ensures Entries(rows).Success? ==>
      |Entries(rows).value| == |rows| && forall i :: 0 <= i < |rows| ==> RowEntry(rows[i]) == Success(Entries(rows).value[i])
  {
    RowEntriesSpec(rows);
    CollectSpec(RowEntries(rows));
  }

  /** The dictionary filled from the entries in order: a later entry overwrites an earlier one. */
  function Fill(entries: seq<Option<(string, Season)>>): map<string, Season>
    decreases |entries|
  {
    if entries == [] then map[]
    else
      var before := Fill(entries[..|entries| - 1]);
      var e := entries[|entries| - 1];
      if e.Some? then before[e.value.0 := e.value.1] else before
  }

  /**
   * A file is labelled exactly when some entry names it, and it carries
   * the label of the last entry that does.
   */
  lemma {:induction false} FillSpec(entries: seq<Option<(string, Season)>>, f: string)
    ensures f in Fill(entries) <==> exists i :: 0 <= i < |entries| && entries[i].Some? && entries[i].value.0 == f
    ensures f in Fill(entries) ==>
      exists i :: (0 <= i < |entries| && entries[i] == Some((f, Fill(entries)[f]))
        && forall j :: i < j < |entries| ==> entries[j].None? || entries[j].value.0 != f)
    decreases |entries|
  {
    if entries != [] {
      var init := entries[..|entries| - 1];
      var last := |entries| - 1;
      FillSpec(init, f);
      assert forall i :: 0 <= i < |init| ==> entries[i] == init[i];
      if entries[last].Some? && entries[last].value.0 == f {
        assert entries[last] == Some((f, Fill(entries)[f]));
      } else if f in Fill(entries) {
        var i :| (0 <= i < |init| && init[i] == Some((f, Fill(init)[f]))
          && forall j :: i < j < |init| ==> init[j].None? || init[j].value.0 != f);
        assert entries[i] == Some((f, Fill(entries)[f]));
      }
    }
  }

  /** What `load_ground_truth` returns for the rows. */
  function GroundTruth(rows: seq<ClassRow>): Result<map<string, Season>, string> {
    match Entries(rows)
    case Failure(e) => Failure(e)
    case Success(entries) => Success(Fill(entries))
  }

  /** `load_ground_truth`: the rows in order, each labelled row setting its file's label. */
  method LoadGroundTruth(rows: seq<ClassRow>) returns (r: Result<map<string, Season>, string>)
    ensures r == GroundTruth(rows)
  {
    var groundTruth: map<string, Season> := map[];
    ghost var entries: seq<Option<(string, Season)>> := [];
    var i := 0;
    while i < |rows|
      invariant 0 <= i <= |rows|
      invariant Entries(rows[..i]) == Success(entries) && groundTruth == Fill(entries)
    {
      var entry := RowEntry(rows[i]);
      EntriesStep(rows, i, entries);
      if entry.Failure? {
        FailureStays(rows, i + 1);
        return Failure(entry.error);
      }
      if entry.value.Some? {
        groundTruth := groundTruth[entry.value.value.0 := entry.value.value.1];
      }
      FillStep(entries, entry.value);
      entries := entries + [entry.value];
      i := i + 1;
    }
    assert rows[..|rows|] == rows;
    r := Success(groundTruth);
  }

  /** Reading one more row: its failure, or its entry appended. */
  lemma EntriesStep(rows: seq<ClassRow>, i: nat, entries: seq<Option<(string, Season)>>)
    requires i < |rows| && Entries(rows[..i]) == Success(entries)
    ensures RowEntry(rows[i]).Failure? ==> Entries(rows[..i + 1]) == Failure(RowEntry(rows[i]).error)
    ensures RowEntry(rows[i]).Success? ==> Entries(rows[..i + 1]) == Success(entries + [RowEntry(rows[i]).value])
  {
    assert rows[..i + 1][..i] == rows[..i];
    assert RowEntries(rows[..i + 1]) == RowEntries(rows[..i]) + [RowEntry(rows[i])];
  }

  /** Filling with one more entry sets that entry's file, if it has one. */
  lemma FillStep(entries: seq<Option<(string, Season)>>, e: Option<(string, Season)>)
    ensures Fill(entries + [e]) == if e.Some? then Fill(entries)[e.value.0 := e.value.1] else Fill(entries)
  {
    assert (entries + [e])[..|entries|] == entries;
  }

  /** A failing row fails the whole load, whatever follows it. */
  lemma {:induction false} FailureStays(rows: seq<ClassRow>, n: nat)
    requires n <= |rows| && Entries(rows[..n]).Failure?
    ensures Entries(rows).Failure? && Entries(rows).error == Entries(rows[..n]).error
    decreases |rows| - n
  {
    if n < |rows| {
      assert rows[..n + 1][..n] == rows[..n];
      FailureStays(rows, n + 1);
    } else {
      assert rows[..n] == rows;
    }
  }
}
