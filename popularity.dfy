/**
 * Like counts and popularity ranking (src/database/popularity.py).
 *
 * The JSON file is the `file` field of a `PopularityFile`: absent, holding
 * a map of counts, or holding text that does not decode as one. The
 * catalogue items are objects whose `popularity` entry the ranking sets in
 * place; their `ID` is an integer, as the sheet delivers it.
 */
module Popularity {
  import opened Wrappers
  import opened Text

  /** What the popularity file holds. */
  datatype Contents = Counts(counts: map<string, int>) | Corrupt

  /** `_load_popularity`: a missing or undecodable file reads as no likes at all. */
  function Loaded(file: Option<Contents>): (m: map<string, int>)
    ensures file.None? ==> m == map[]
    ensures file == Some(Corrupt) ==> m == map[]
    ensures file.Some? && file.value.Counts? ==> m == file.value.counts
  {
    match file
    case Some(Counts(counts)) => counts
    case _ => map[]
  }

  /** `popularity.get(item_id, 0)`. */
  function CountOf(m: map<string, int>, itemId: string): int {
    if itemId in m then m[itemId] else 0
  }

  /** The counts after one like of `itemId`. */
  function Liked(m: map<string, int>, itemId: string): map<string, int> {
    m[itemId := CountOf(m, itemId) + 1]
  }

  /** A like raises the liked item's count by one, from 0 when unseen, and leaves every other count alone. */
  lemma LikedCounts(m: map<string, int>, itemId: string, other: string)
    ensures CountOf(Liked(m, itemId), itemId) == CountOf(m, itemId) + 1
    ensures itemId !in m ==> CountOf(Liked(m, itemId), itemId) == 1
    ensures other != itemId ==> CountOf(Liked(m, itemId), other) == CountOf(m, other)
    ensures Liked(m, itemId).Keys == m.Keys + {itemId}
  {
  }

  /** The popularity file. */
  class PopularityFile {
    var file: Option<Contents>

    constructor(file: Option<Contents>)
      ensures this.file == file
    {
      this.file := file;
    }

    /** `get_all_popularity`. */
    function AllPopularity(): map<string, int>
      reads this
    {
      Loaded(file)
    }

    /** `get_item_popularity`: the stored count, or 0 for an item never liked. */
    function GetItemPopularity(itemId: string): (n: int)
      reads this
      ensures itemId !in AllPopularity() ==> n == 0
      ensures itemId in AllPopularity() ==> n == AllPopularity()[itemId]
    {
      CountOf(Loaded(file), itemId)
    }

    /**
     * `like_item`: load, increment, save. The file then holds the loaded
     * counts with this item's raised by one, and the new count is returned.
     */
    method LikeItem(itemId: string) returns (count: int)
      modifies this
      ensures count == old(GetItemPopularity(itemId)) + 1
      ensures file == Some(Counts(Liked(old(AllPopularity()), itemId)))
      ensures GetItemPopularity(itemId) == count
    {
      var popularity := Loaded(file);
      var currentCount := CountOf(popularity, itemId);
      popularity := popularity[itemId := currentCount + 1];
      file := Some(Counts(popularity));
      count := popularity[itemId];
    }
  }

  // ---------------------------------------------------------------------
  // Ranking

  /** A catalogue item: its `ID` entry, if any, and the `popularity` entry the ranking adds. */
  class Item {
    const id: Option<int>
    var popularity: Option<int>

    constructor(id: Option<int>)
      ensures this.id == id && popularity == None
    {
      this.id := id;
      popularity := None;
    }
  }

  /** `str(item.get("ID", ""))`: the key under which an item's likes are counted. */
  function IdKey(id: Option<int>): string {
    match id
    case None => ""
    case Some(n) => IntToString(n)
  }

  /** An item's sort key `(popularity, ID)` together with its position in the input list. */
  datatype Ranked = Ranked(pos: nat, popularity: int, id: int)

  /** The sort keys of the items, in input order, once their popularity is set. */
  function Ranks(ids: seq<Option<int>>, counts: map<string, int>): (rs: seq<Ranked>)
    ensures |rs| == |ids|
    ensures forall k :: 0 <= k < |rs| ==>
      rs[k] == Ranked(k, CountOf(counts, IdKey(ids[k])), ids[k].GetOr(0))
  {
    seq(|ids|, k requires 0 <= k < |ids| => Ranked(k, CountOf(counts, IdKey(ids[k])), ids[k].GetOr(0)))
  }

  /**
   * `a` may come before `b` in the output of `sorted(..., reverse=True)`:
   * a larger key first, and among equal keys the earlier item first.
   */
  predicate Precedes(a: Ranked, b: Ranked) {
    a.popularity > b.popularity
    || (a.popularity == b.popularity && a.id > b.id)
    || (a.popularity == b.popularity && a.id == b.id && a.pos <= b.pos)
  }

  predicate Descending(s: seq<Ranked>) {
    forall i, j :: 0 <= i < j < |s| ==> Precedes(s[i], s[j])
  }

  /** `x` put before the first element it precedes. */
  function Insert(x: Ranked, s: seq<Ranked>): (r: seq<Ranked>)
    ensures |r| == |s| + 1
  {
    if s == [] then [x]
    else if Precedes(x, s[0]) then [x] + s
    else [s[0]] + Insert(x, s[1..])
  }

  /** Python's stable sort, descending by key. */
  function Sort(s: seq<Ranked>): (r: seq<Ranked>)
    ensures |r| == |s|
  {
    if s == [] then [] else Insert(s[0], Sort(s[1..]))
  }

  lemma {:induction false} InsertPermutes(x: Ranked, s: seq<Ranked>)
    ensures multiset(Insert(x, s)) == multiset(s) + multiset{x}
  {
    if s != [] && !Precedes(x, s[0]) {
      InsertPermutes(x, s[1..]);
      assert s == [s[0]] + s[1..];
    }
  }

  lemma {:induction false} InsertDescending(x: Ranked, s: seq<Ranked>)
    requires Descending(s)
    ensures Descending(Insert(x, s))
  {
    if s != [] && !Precedes(x, s[0]) {
      var rest := s[1..];
      InsertDescending(x, rest);
      InsertPermutes(x, rest);
      var r := Insert(x, rest);
      forall k | 0 <= k < |r|
        ensures Precedes(s[0], r[k])
      {
        assert r[k] in multiset(r);
        assert r[k] == x || r[k] in multiset(rest);
        if r[k] != x {
          var j :| 0 <= j < |rest| && rest[j] == r[k];
          assert s[j + 1] == r[k];
        }
      }
      assert Insert(x, s) == [s[0]] + r;
    }
  }

  /** The sort yields its input reordered, in descending order. */
  lemma {:induction false} SortSpec(s: seq<Ranked>)
    ensures Descending(Sort(s))
    ensures multiset(Sort(s)) == multiset(s)
  {
    if s != [] {
      SortSpec(s[1..]);
      InsertDescending(s[0], Sort(s[1..]));
      InsertPermutes(s[0], Sort(s[1..]));
      assert s == [s[0]] + s[1..];
    }
  }

  /** No two entries share a position. */
  predicate DistinctPositions(s: seq<Ranked>) {
    forall i, j :: 0 <= i < j < |s| ==> s[i].pos != s[j].pos
  }

  lemma {:induction false} SortDistinct(s: seq<Ranked>)
    requires DistinctPositions(s)
    ensures DistinctPositions(Sort(s))
  {
    if s != [] {
      var rest := s[1..];
      SortDistinct(rest);
      SortSpec(rest);
      forall y | y in Sort(rest)
        ensures y.pos != s[0].pos
      {
        assert y in multiset(Sort(rest));
        var j :| 0 <= j < |rest| && rest[j] == y;
        assert s[j + 1] == y;
      }
      InsertDistinct(s[0], Sort(rest));
    }
  }

  lemma {:induction false} InsertDistinct(x: Ranked, s: seq<Ranked>)
    requires DistinctPositions(s)
    requires forall y :: y in s ==> y.pos != x.pos
    ensures DistinctPositions(Insert(x, s))
  {
    if s != [] && !Precedes(x, s[0]) {
      var rest := s[1..];
      InsertDistinct(x, rest);
      InsertPermutes(x, rest);
      var r := Insert(x, rest);
      forall k | 0 <= k < |r|
        ensures r[k].pos != s[0].pos
      {
        assert r[k] in multiset(r);
        assert r[k] == x || r[k] in multiset(rest);
        if r[k] != x {
          var j :| 0 <= j < |rest| && rest[j] == r[k];
          assert s[j + 1] == r[k];
        }
      }
      assert Insert(x, s) == [s[0]] + r;
    }
  }

  /**
   * The ranking of the items: every item once, by non-increasing
   * `(popularity, ID)`, and items equal on both keep their input order.
   */
  lemma Ranking(ids: seq<Option<int>>, counts: map<string, int>)
    ensures var r := Sort(Ranks(ids, counts));
      && multiset(r) == multiset(Ranks(ids, counts))
      && (forall i, j :: 0 <= i < j < |r| ==>
            r[i].popularity > r[j].popularity || (r[i].popularity == r[j].popularity && r[i].id >= r[j].id))
      && (forall i, j :: 0 <= i < j < |r| && r[i].popularity == r[j].popularity && r[i].id == r[j].id ==>
            r[i].pos < r[j].pos)
  {
    var rs := Ranks(ids, counts);
    SortSpec(rs);
    SortDistinct(rs);
  }

  /** Every position in `rs` is one of the items'. */
  predicate Within(rs: seq<Ranked>, n: nat) {
    forall k :: 0 <= k < |rs| ==> rs[k].pos < n
  }

  /** The items at the positions of `rs`, in the order of `rs`. */
  function Pick(items: seq<Item>, rs: seq<Ranked>): (r: seq<Item>)
    requires Within(rs, |items|)
    ensures |r| == |rs|
  {
    seq(|rs|, k requires 0 <= k < |rs| => items[rs[k].pos])
  }

  lemma {:induction false} PickInsert(items: seq<Item>, x: Ranked, s: seq<Ranked>)
    requires x.pos < |items| && Within(s, |items|)
    ensures Within(Insert(x, s), |items|)
    ensures multiset(Pick(items, Insert(x, s))) == multiset(Pick(items, s)) + multiset{items[x.pos]}
  {
    if s == [] {
    } else if Precedes(x, s[0]) {
      assert Pick(items, Insert(x, s)) == [items[x.pos]] + Pick(items, s);
    } else {
      PickInsert(items, x, s[1..]);
      assert Pick(items, Insert(x, s)) == [items[s[0].pos]] + Pick(items, Insert(x, s[1..]));
      assert Pick(items, s) == [items[s[0].pos]] + Pick(items, s[1..]);
    }
  }

  lemma {:induction false} PickSort(items: seq<Item>, s: seq<Ranked>)
    requires Within(s, |items|)
    ensures Within(Sort(s), |items|)
    ensures multiset(Pick(items, Sort(s))) == multiset(Pick(items, s))
  {
    if s != [] {
      PickSort(items, s[1..]);
      PickInsert(items, s[0], Sort(s[1..]));
      assert Pick(items, s) == [items[s[0].pos]] + Pick(items, s[1..]);
    }
  }

  /** The ranked list holds exactly the input items, each as often as in the input. */
  lemma RankedItems(items: seq<Item>, counts: map<string, int>)
    ensures Within(Sort(Ranks(IdsOf(items), counts)), |items|)
    ensures multiset(Pick(items, Sort(Ranks(IdsOf(items), counts)))) == multiset(items)
  {
    var rs := Ranks(IdsOf(items), counts);
    PickSort(items, rs);
    assert Pick(items, rs) == items;
  }

  /** The `ID` entries of the items. */
  function IdsOf(items: seq<Item>): (ids: seq<Option<int>>)
    ensures |ids| == |items| && forall k :: 0 <= k < |items| ==> ids[k] == items[k].id
  {
    seq(|items|, k requires 0 <= k < |items| => items[k].id)
  }

  /** The loop of `add_popularity_to_items`: each item gets its count, 0 when never liked. */
  method SetPopularity(items: seq<Item>, counts: map<string, int>)
    modifies set it | it in items
    ensures forall k :: 0 <= k < |items| ==> items[k].popularity == Some(CountOf(counts, IdKey(items[k].id)))
  {
    var i := 0;
    while i < |items|
      invariant 0 <= i <= |items|
      invariant forall k :: 0 <= k < i ==> items[k].popularity == Some(CountOf(counts, IdKey(items[k].id)))
    {
      var item := items[i];
      var itemId := IdKey(item.id);
      item.popularity := Some(CountOf(counts, itemId));
      i := i + 1;
    }
  }

  /**
   * `add_popularity_to_items`: every item carries its count from the file,
   * and the result is the items ranked by `(popularity, ID)` (see Ranking
   * and RankedItems).
   */
  method AddPopularityToItems(store: PopularityFile, items: seq<Item>) returns (sorted: seq<Item>)
    modifies set it | it in items
    ensures forall k :: 0 <= k < |items| ==>
      items[k].popularity == Some(CountOf(store.AllPopularity(), IdKey(items[k].id)))
    ensures Within(Sort(Ranks(IdsOf(items), store.AllPopularity())), |items|)
    ensures sorted == Pick(items, Sort(Ranks(IdsOf(items), store.AllPopularity())))
    ensures multiset(sorted) == multiset(items)
  {
    var popularity := store.AllPopularity();
    SetPopularity(items, popularity);
    RankedItems(items, popularity);
    sorted := Pick(items, Sort(Ranks(IdsOf(items), popularity)));
  }
}
