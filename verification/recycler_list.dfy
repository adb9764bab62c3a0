/**
 * The nearby-recyclers list of the client: the records are filtered by a
 * search query, then ordered by a sort mode. The component keeps both in
 * state but renders no control that changes them, so as the program stands
 * the query stays "" and the mode stays "distance".
 */
module RecyclerList {
  import opened Text

  /**
   * A recycler as the client receives it. Rating and distance are the numbers
   * the comparator parses out of the record, as integers (tenths); a rating of
   * 0 stands for an unrated place.
   */
  datatype Recycler = Recycler(
    name: string,
    address: string,
    rating: int,
    distance: int,
    thumbnail: string,
    mapsUrl: string)

  /** The sort mode the component starts with (and, having no setter in use, keeps). */
  const DefaultSortBy: string := "distance"

  /** The query the component starts with (and keeps). */
  const InitialQuery: string := ""

  /** The filter callback: the lower-cased query occurs in the lower-cased name or address. */
  predicate Matches(r: Recycler, query: string)
    ensures Matches(r, query) <==>
      (exists i :: OccursAt(Lower(r.name), Lower(query), i)) ||
      (exists j :: OccursAt(Lower(r.address), Lower(query), j))
  {
    Includes(Lower(r.name), Lower(query)) || Includes(Lower(r.address), Lower(query))
  }

  /** Lower-casing the query first changes nothing: the search is case-insensitive. */
  lemma {:induction false} MatchesIgnoresQueryCase(r: Recycler, query: string)
    ensures Matches(r, Lower(query)) <==> Matches(r, query)
  {
    LowerIdempotent(query);
  }

  /** The empty query occurs in every string, so it keeps every record. */
  lemma EmptyQueryMatches(r: Recycler)
    ensures Matches(r, "")
  {
    assert OccursAt(Lower(r.name), Lower(""), 0);
  }

  /** `recyclersData.filter(...)`: the matching records, in input order. */
  function Filter(rs: seq<Recycler>, query: string): (kept: seq<Recycler>)
    ensures |kept| <= |rs|
    ensures forall x :: x in kept <==> x in rs && Matches(x, query)
    ensures forall x :: multiset(kept)[x] == if Matches(x, query) then multiset(rs)[x] else 0
  {
    if rs == [] then []
    else
      assert rs == [rs[0]] + rs[1..];
      (if Matches(rs[0], query) then [rs[0]] else []) + Filter(rs[1..], query)
  }

  /** A single record is kept exactly when it matches. */
  lemma FilterOne(x: Recycler, query: string)
    ensures Filter([x], query) == if Matches(x, query) then [x] else []
  {
    assert [x][1..] == [];
  }

  /** Filtering distributes over concatenation, so kept records stay in input order. */
  lemma {:induction false} FilterAppend(a: seq<Recycler>, b: seq<Recycler>, query: string)
    ensures Filter(a + b, query) == Filter(a, query) + Filter(b, query)
    decreases |a|
  {
    if a == [] {
      assert a + b == b;
    } else {
      assert (a + b)[0] == a[0];
      assert (a + b)[1..] == a[1..] + b;
      FilterAppend(a[1..], b, query);
    }
  }

  lemma {:induction false} FilterEmptyQuery(rs: seq<Recycler>)
    ensures Filter(rs, "") == rs
  {
    if rs != [] {
      EmptyQueryMatches(rs[0]);
      FilterEmptyQuery(rs[1..]);
      assert rs == [rs[0]] + rs[1..];
    }
  }

  /** The three behaviours of the comparator, chosen by the `sortBy` string. */
  datatype SortMode = ByDistance | ByRating | Unsorted

  function ModeOf(sortBy: string): (m: SortMode)
    ensures m == ByDistance <==> sortBy == "distance"
    ensures m == ByRating <==> sortBy == "rating"
  {
    if sortBy == "distance" then ByDistance
    else if sortBy == "rating" then ByRating
    else Unsorted
  }

  /** The number the comparator orders by: distance ascending, rating descending, or nothing. */
  function SortKey(mode: SortMode, r: Recycler): int {
    match mode
    case ByDistance => r.distance
    case ByRating => -r.rating
    case Unsorted => 0
  }

  /** The comparator passed to `sort`: negative when `a` goes first. It is the difference of two keys, hence consistent. */
  function Compare(sortBy: string, a: Recycler, b: Recycler): (c: int)
    ensures c == SortKey(ModeOf(sortBy), a) - SortKey(ModeOf(sortBy), b)
  {
    if sortBy == "distance" then a.distance - b.distance
    else if sortBy == "rating" then b.rating - a.rating
    else 0
  }

  /** The order the comparator asks for holds between every pair of positions. */
  predicate SortedBy(mode: SortMode, s: seq<Recycler>) {
    forall i, j :: 0 <= i < j < |s| ==> SortKey(mode, s[i]) <= SortKey(mode, s[j])
  }

  lemma SortedCons(mode: SortMode, h: Recycler, t: seq<Recycler>)
    requires SortedBy(mode, t)
    requires forall y :: y in t ==> SortKey(mode, h) <= SortKey(mode, y)
    ensures SortedBy(mode, [h] + t)
  {
    var s := [h] + t;
    forall i, j | 0 <= i < j < |s| ensures SortKey(mode, s[i]) <= SortKey(mode, s[j]) {
      assert s[j] == t[j - 1];
      if i > 0 {
        assert s[i] == t[i - 1];
      }
    }
  }

  /** Inserts `x` before the first element with a larger key; ties keep `x` first. */
  function Insert(mode: SortMode, x: Recycler, sorted: seq<Recycler>): (r: seq<Recycler>)
    requires SortedBy(mode, sorted)
    ensures multiset(r) == multiset(sorted) + multiset{x}
    ensures forall y :: y in r <==> y == x || y in sorted
    ensures SortedBy(mode, r)
  {
    if sorted == [] || SortKey(mode, x) <= SortKey(mode, sorted[0]) then
      assert forall y :: y in sorted ==> SortKey(mode, x) <= SortKey(mode, y) by {
        forall y | y in sorted ensures SortKey(mode, x) <= SortKey(mode, y) {
          var k :| 0 <= k < |sorted| && sorted[k] == y;
          assert k == 0 || SortKey(mode, sorted[0]) <= SortKey(mode, sorted[k]);
        }
      }
      SortedCons(mode, x, sorted);
      [x] + sorted
    else
      var h := sorted[0];
      assert sorted == [h] + sorted[1..];
      var tail := Insert(mode, x, sorted[1..]);
      assert forall y :: y in sorted[1..] ==> SortKey(mode, h) <= SortKey(mode, y) by {
        forall y | y in sorted[1..] ensures SortKey(mode, h) <= SortKey(mode, y) {
          var k :| 0 <= k < |sorted[1..]| && sorted[1..][k] == y;
          assert sorted[k + 1] == y;
        }
      }
      SortedCons(mode, h, tail);
      [h] + tail
  }

  /**
   * `Array.prototype.sort` with the comparator of `mode`: a stable sort, so
   * records with equal keys keep their input order.
   */
  function Sort(mode: SortMode, rs: seq<Recycler>): (r: seq<Recycler>)
    ensures multiset(r) == multiset(rs)
    ensures SortedBy(mode, r)
  {
    if rs == [] then []
    else
      assert rs == [rs[0]] + rs[1..];
      Insert(mode, rs[0], Sort(mode, rs[1..]))
  }

  /** With any mode other than distance or rating the comparator is 0 and the order is kept. */
  lemma {:induction false} SortUnsortedKeepsOrder(rs: seq<Recycler>)
    ensures Sort(Unsorted, rs) == rs
  {
    if rs != [] {
      SortUnsortedKeepsOrder(rs[1..]);
      assert rs == [rs[0]] + rs[1..];
    }
  }

  /** `filteredRecyclers`: filter by the query, then sort by the selected mode. */
  function Visible(rs: seq<Recycler>, query: string, sortBy: string): (shown: seq<Recycler>)
    ensures multiset(shown) == multiset(Filter(rs, query))
    ensures forall x :: x in shown <==> x in rs && Matches(x, query)
    ensures forall i, j :: 0 <= i < j < |shown| ==> Compare(sortBy, shown[i], shown[j]) <= 0
    ensures sortBy == "distance" ==>
      forall i, j :: 0 <= i < j < |shown| ==> shown[i].distance <= shown[j].distance
    ensures sortBy == "rating" ==>
      forall i, j :: 0 <= i < j < |shown| ==> shown[i].rating >= shown[j].rating
  {
    var kept := Filter(rs, query);
    var mode := ModeOf(sortBy);
    var shown := Sort(mode, kept);
    SameMultisetSameMembers(shown, kept);
    assert SortedBy(mode, shown);
    shown
  }

  lemma SameMultisetSameMembers(a: seq<Recycler>, b: seq<Recycler>)
    requires multiset(a) == multiset(b)
    ensures forall x :: x in a <==> x in b
  {
    forall x ensures x in a <==> x in b {
      assert x in a <==> x in multiset(a);
      assert x in b <==> x in multiset(b);
    }
  }

  /**
   * In a list sorted by rating (as `Visible` returns for "rating"), an unrated
   * (0) record comes after every positively rated one.
   */
  lemma UnratedComesLast(s: seq<Recycler>, i: int, j: int)
    requires SortedBy(ByRating, s)
    requires 0 <= i < |s| && 0 <= j < |s|
    requires s[i].rating == 0 && s[j].rating > 0
    ensures j < i
  {
  }

  /**
   * With the initial mode and query, which are the only ones the component
   * ever uses, every record is shown, nearest first: the search never narrows
   * the list. (Distances are numbers here; a record the server sends without
   * a distance parses to NaN on the client and voids the order.)
   */
  lemma {:induction false} InitialViewShowsAll(rs: seq<Recycler>)
    ensures multiset(Visible(rs, InitialQuery, DefaultSortBy)) == multiset(rs)
    ensures forall i, j :: 0 <= i < j < |Visible(rs, InitialQuery, DefaultSortBy)| ==>
      Visible(rs, InitialQuery, DefaultSortBy)[i].distance <= Visible(rs, InitialQuery, DefaultSortBy)[j].distance
  {
    FilterEmptyQuery(rs);
  }

  /** A mode other than distance or rating shows the matching records in input order. */
  lemma {:induction false} VisibleOtherModeIsFilter(rs: seq<Recycler>, query: string, sortBy: string)
    requires sortBy != "distance" && sortBy != "rating"
    ensures Visible(rs, query, sortBy) == Filter(rs, query)
  {
    SortUnsortedKeepsOrder(Filter(rs, query));
  }
}
