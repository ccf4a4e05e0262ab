/** `korea-districts.ts`: the district list ("시-구-동" names joined by `-`), the
    parsing of one name into its levels, the search over the list and the query
    string used for a weather lookup. The list is a parameter `data`. */
module KoreaDistricts {
  import opened Wrappers
  import opened JsText

  /** `ParsedLocation`; an absent level is `None`. */
  datatype ParsedLocation = ParsedLocation(
    fullName: string,
    city: string,
    district: Option<string>,
    dong: Option<string>,
    displayName: string)

  /** `parts[i] || null`: a missing or empty segment is no segment. */
  function Segment(parts: seq<string>, i: nat): (r: Option<string>)
    ensures r.Some? <==> i < |parts| && parts[i] != ""
    ensures r.Some? ==> r.value == parts[i]
  {
    if i < |parts| && parts[i] != "" then Some(parts[i]) else None
  }

  /** `parseLocationName(fullName)`. */
  function ParseLocationName(fullName: string): (r: ParsedLocation)
    ensures r.fullName == fullName
    ensures var parts := Split(fullName, '-');
      && r.city == (if parts[0] != "" then parts[0] else fullName)
      && r.district == Segment(parts, 1)
      && r.dong == Segment(parts, 2)
    ensures r.district.Some? ==> r.district.value != "" && '-' !in r.district.value
    ensures r.dong.Some? ==> r.dong.value != "" && '-' !in r.dong.value
    ensures r.district.Some? && r.dong.Some? ==> r.displayName == r.district.value + " " + r.dong.value
    ensures r.district.Some? && r.dong.None? ==> r.displayName == r.city + " " + r.district.value
    ensures r.district.None? ==> r.displayName == r.city
  {
    var parts := Split(fullName, '-');
    var city := if parts[0] != "" then parts[0] else fullName;
    var district := Segment(parts, 1);
    var dong := Segment(parts, 2);
    var displayName :=
      if district.Some? then (if dong.Some? then district.value + " " + dong.value else city + " " + district.value)
      else city;
    ParsedLocation(fullName, city, district, dong, displayName)
  }

  lemma JoinOfThree(a: string, b: string, c: string)
    ensures JoinWith([a, b, c], "-") == a + "-" + b + "-" + c
  {
    assert [a, b, c][1..] == [b, c] && [b, c][1..] == [c];
    assert JoinWith([b, c], "-") == b + "-" + c;
    assert a + "-" + (b + "-" + c) == a + "-" + b + "-" + c;
  }

  /** A dong-level name: three levels, shown as "district dong". */
  lemma ParseDong(c: string, d: string, g: string)
    requires c != "" && d != "" && g != ""
    requires '-' !in c && '-' !in d && '-' !in g
    ensures ParseLocationName(c + "-" + d + "-" + g)
      == ParsedLocation(c + "-" + d + "-" + g, c, Some(d), Some(g), d + " " + g)
  {
    JoinOfThree(c, d, g);
    JoinThenSplit([c, d, g], '-');
  }

  /** A district-level name: two levels, shown as "city district". */
  lemma ParseDistrict(c: string, d: string)
    requires c != "" && d != "" && '-' !in c && '-' !in d
    ensures ParseLocationName(c + "-" + d) == ParsedLocation(c + "-" + d, c, Some(d), None, c + " " + d)
  {
    assert [c, d][1..] == [d];
    assert JoinWith([c, d], "-") == c + "-" + d;
    JoinThenSplit([c, d], '-');
  }

  /** A city-level name: one level, shown as itself. */
  lemma ParseCity(c: string)
    requires '-' !in c
    ensures ParseLocationName(c) == ParsedLocation(c, c, None, None, c)
  {
    JoinThenSplit([c], '-');
  }

  /** Any name made of dash-free segments: the first segment is the city (the whole
      name when that segment is empty), the second and third, when not empty, are the
      district and the dong, and any further segments are ignored. */
  lemma ParseJoined(parts: seq<string>)
    requires |parts| >= 1
    requires forall k | 0 <= k < |parts| :: '-' !in parts[k]
    ensures var r := ParseLocationName(JoinWith(parts, "-"));
      && r.city == (if parts[0] != "" then parts[0] else JoinWith(parts, "-"))
      && r.district == Segment(parts, 1)
      && r.dong == Segment(parts, 2)
  {
    JoinThenSplit(parts, '-');
  }

  /** An empty middle segment hides the dong from the display name. */
  lemma ParseEmptyDistrict(c: string, g: string)
    requires c != "" && g != "" && '-' !in c && '-' !in g
    ensures ParseLocationName(c + "--" + g) == ParsedLocation(c + "--" + g, c, None, Some(g), c)
  {
    JoinOfThree(c, [], g);
    assert c + "-" + [] + "-" + g == c + "--" + g;
    JoinThenSplit([c, [], g], '-');
  }

  /** `getLocationForWeatherSearch(location)`. */
  function LocationForWeatherSearch(location: ParsedLocation): (r: string)
    ensures location.district.Some? && location.district.value != ""
      ==> r == location.district.value + ", " + location.city + ", KR"
    ensures location.district.None? ==> r == location.city + ", KR"
  {
    if location.district.Some? && location.district.value != "" then
      location.district.value + ", " + location.city + ", KR"
    else location.city + ", KR"
  }

  /** A dong is looked up through its district: the weather query is the same as
      for the district's own entry. */
  lemma DongSearchesItsDistrict(c: string, d: string, g: string)
    requires c != "" && d != "" && g != ""
    requires '-' !in c && '-' !in d && '-' !in g
    ensures LocationForWeatherSearch(ParseLocationName(c + "-" + d + "-" + g))
      == LocationForWeatherSearch(ParseLocationName(c + "-" + d))
      == d + ", " + c + ", KR"
  {
    ParseDong(c, d, g);
    ParseDistrict(c, d);
  }

  /** `getAllLocations()`. */
  function AllLocations(data: seq<string>): (r: seq<ParsedLocation>)
    ensures |r| == |data|
    ensures forall k | 0 <= k < |r| :: r[k] == ParseLocationName(data[k])
  {
    seq(|data|, k requires 0 <= k < |data| => ParseLocationName(data[k]))
  }

  // ----- search -----

  /** The filter of `searchLocations`: some `-` segment of the lowercased name
      contains the normalised query. */
  predicate Matches(location: string, query: string) {
    var parts := Split(ToLower(location), '-');
    exists k | 0 <= k < |parts| :: Includes(parts[k], query)
  }

  /** `query.trim().toLowerCase()`. */
  function NormalizedQuery(query: string): (q: string)
    ensures |q| <= |query|
    ensures q == [] <==> AllSpace(query)
  {
    ToLower(Trim(query))
  }

  /** The entries that `keep` accepts, in order: `Array.prototype.filter`. */
  function Filter<T>(s: seq<T>, keep: T -> bool): (r: seq<T>)
    ensures |r| <= |s|
    ensures forall k | 0 <= k < |r| :: keep(r[k])
    ensures forall x | x in r :: x in s && keep(x)
    ensures forall x | x in s && keep(x) :: x in r
  {
    if s == [] then []
    else
      var rest := Filter(s[1..], keep);
      assert forall k | 0 <= k < |rest| :: ([s[0]] + rest)[k + 1] == rest[k];
      if keep(s[0]) then [s[0]] + rest else rest
  }

  /** The filter keeps order: filtering a concatenation filters each part in turn. */
  lemma {:induction false} FilterOfConcat<T>(a: seq<T>, b: seq<T>, keep: T -> bool)
    ensures Filter(a + b, keep) == Filter(a, keep) + Filter(b, keep)
  {
    if a == [] {
      assert a + b == b;
    } else {
      FilterOfConcat(a[1..], b, keep);
      assert (a + b)[0] == a[0];
      assert (a + b)[1..] == a[1..] + b;
    }
  }

  /** The matching names, in data order. */
  function Matching(data: seq<string>, query: string): (r: seq<string>)
    ensures |r| <= |data|
    ensures forall k | 0 <= k < |r| :: Matches(r[k], query)
    ensures forall x :: x in r <==> x in data && Matches(x, query)
  {
    Filter(data, name => Matches(name, query))
  }

  /** `.slice(0, limit)`: a negative limit counts back from the end. */
  function SliceEnd(n: nat, limit: int): (e: nat)
    ensures e <= n
    ensures limit >= 0 ==> e == if limit < n then limit else n
  {
    if limit >= 0 then (if limit < n then limit else n)
    else if n + limit > 0 then n + limit else 0
  }

  /** `1` for a city, `2` for a district, `3` for a dong. */
  function Level(p: ParsedLocation): (l: int)
    ensures 1 <= l <= 3
    ensures l == 3 <==> p.dong.Some? && p.dong.value != ""
    ensures l == 2 <==> (p.dong.None? || p.dong.value == "") && p.district.Some? && p.district.value != ""
  {
    if p.dong.Some? && p.dong.value != "" then 3
    else if p.district.Some? && p.district.value != "" then 2
    else 1
  }

  /** Some level of the location starts with the query. */
  predicate StartsWithQuery(p: ParsedLocation, query: string) {
    || StartsWith(ToLower(p.city), query)
    || (p.district.Some? && StartsWith(ToLower(p.district.value), query))
    || (p.dong.Some? && StartsWith(ToLower(p.dong.value), query))
  }

  /** The comparator's first two keys folded into one: locations that start with
      the query first, then by level. */
  function Rank(p: ParsedLocation, query: string): (k: int)
    ensures 0 <= k < 6
    ensures k < 3 <==> StartsWithQuery(p, query)
  {
    (if StartsWithQuery(p, query) then 0 else 3) + Level(p) - 1
  }

  /** The rank under one query, as a key for the sort. */
  function RankOf(query: string): ParsedLocation -> int {
    p => Rank(p, query)
  }

  /** `le` is total and transitive: a comparator `cmp` read as `cmp(a, b) <= 0`.
      `localeCompare(…, 'ko')` on the full names is one. */
  ghost predicate TotalPreorder<T(!new)>(le: (T, T) -> bool) {
    && (forall a, b :: le(a, b) || le(b, a))
    && (forall a, b, c :: le(a, b) && le(b, c) ==> le(a, c))
  }

  /** The comparator of `searchLocations`: by the key, ties broken by `before` on
      the full names. */
  function ThenByName(key: ParsedLocation -> int, before: (string, string) -> bool)
    : (ParsedLocation, ParsedLocation) -> bool
  {
    (p: ParsedLocation, q: ParsedLocation) =>
      key(p) < key(q) || (key(p) == key(q) && before(p.fullName, q.fullName))
  }

  /** The order of the search results under one query and one collation. */
  function SearchOrder(query: string, before: (string, string) -> bool)
    : (ParsedLocation, ParsedLocation) -> bool
  {
    ThenByName(RankOf(query), before)
  }

  lemma ThenByNameIsTotalPreorder(key: ParsedLocation -> int, before: (string, string) -> bool)
    ensures TotalPreorder(before) ==> TotalPreorder(ThenByName(key, before))
  {
    if TotalPreorder(before) {
      var le := ThenByName(key, before);
      forall p, q ensures le(p, q) || le(q, p) {
        assert before(p.fullName, q.fullName) || before(q.fullName, p.fullName);
      }
      forall p, q, r | le(p, q) && le(q, r) ensures le(p, r) {
        if key(p) == key(q) == key(r) {
          assert before(p.fullName, q.fullName) && before(q.fullName, r.fullName);
        }
      }
    }
  }

  predicate SortedBy<T>(s: seq<T>, le: (T, T) -> bool) {
    forall i, j :: 0 <= i < j < |s| ==> le(s[i], s[j])
  }

  /** The entries that `le` ranks equal to `x`, in order. */
  function Peers<T>(s: seq<T>, le: (T, T) -> bool, x: T): seq<T> {
    if s == [] then []
    else if le(s[0], x) && le(x, s[0]) then [s[0]] + Peers(s[1..], le, x)
    else Peers(s[1..], le, x)
  }

  /** Places `x` in front of the first entry it may precede. */
  function Insert<T>(x: T, s: seq<T>, le: (T, T) -> bool): seq<T> {
    if s == [] || le(x, s[0]) then [x] + s
    else [s[0]] + Insert(x, s[1..], le)
  }

  /** Insertion sort: a stable sort, as `Array.prototype.sort` is. */
  function SortBy<T>(s: seq<T>, le: (T, T) -> bool): seq<T> {
    if s == [] then [] else Insert(s[0], SortBy(s[1..], le), le)
  }

  lemma {:induction false} InsertIsPermutation<T>(x: T, s: seq<T>, le: (T, T) -> bool)
    ensures multiset(Insert(x, s, le)) == multiset(s) + multiset{x}
  {
    if !(s == [] || le(x, s[0])) {
      InsertIsPermutation(x, s[1..], le);
      assert s == [s[0]] + s[1..];
    }
  }

  lemma {:induction false} InsertKeepsSorted<T(!new)>(x: T, s: seq<T>, le: (T, T) -> bool)
    requires TotalPreorder(le)
    requires SortedBy(s, le)
    ensures SortedBy(Insert(x, s, le), le)
  {
    if s == [] || le(x, s[0]) {
      var r := [x] + s;
      forall j | 0 < j < |r| ensures le(x, r[j]) {
        assert r[j] == s[j - 1];
        if j > 1 {
          assert le(s[0], s[j - 1]);
        }
      }
    } else {
      var rest := Insert(x, s[1..], le);
      InsertKeepsSorted(x, s[1..], le);
      InsertIsPermutation(x, s[1..], le);
      var r := [s[0]] + rest;
      forall j | 0 < j < |r| ensures le(s[0], r[j]) {
        assert r[j] == rest[j - 1];
        assert r[j] in multiset(rest);
        assert r[j] == x || r[j] in s[1..];
      }
    }
  }

  /** The sort loses or adds nothing. */
  lemma {:induction false} SortByIsPermutation<T>(s: seq<T>, le: (T, T) -> bool)
    ensures multiset(SortBy(s, le)) == multiset(s)
  {
    if s != [] {
      SortByIsPermutation(s[1..], le);
      InsertIsPermutation(s[0], SortBy(s[1..], le), le);
      assert s == [s[0]] + s[1..];
    }
  }

  /** Under a total preorder the sort's output is ordered. */
  lemma {:induction false} SortByIsSorted<T(!new)>(s: seq<T>, le: (T, T) -> bool)
    ensures TotalPreorder(le) ==> SortedBy(SortBy(s, le), le)
  {
    if s != [] && TotalPreorder(le) {
      SortByIsSorted(s[1..], le);
      InsertKeepsSorted(s[0], SortBy(s[1..], le), le);
    }
  }

  /** Inserting keeps each group of equal entries in order, the new one first. */
  lemma {:induction false} InsertPeers<T(!new)>(x: T, s: seq<T>, le: (T, T) -> bool, k: T)
    requires TotalPreorder(le)
    requires SortedBy(s, le)
    ensures Peers(Insert(x, s, le), le, k)
      == if le(x, k) && le(k, x) then [x] + Peers(s, le, k) else Peers(s, le, k)
  {
    if s == [] || le(x, s[0]) {
      assert ([x] + s)[1..] == s;
    } else {
      var rest := Insert(x, s[1..], le);
      InsertPeers(x, s[1..], le, k);
      assert ([s[0]] + rest)[1..] == rest;
      var first := s[0];
      assert le(x, k) && le(k, first) ==> le(x, first);
    }
  }

  /** The sort is stable: entries that compare equal keep their input order. */
  lemma {:induction false} SortKeepsPeerOrder<T(!new)>(s: seq<T>, le: (T, T) -> bool, k: T)
    requires TotalPreorder(le)
    ensures Peers(SortBy(s, le), le, k) == Peers(s, le, k)
  {
    if s != [] {
      SortKeepsPeerOrder(s[1..], le, k);
      SortByIsSorted(s[1..], le);
      InsertPeers(s[0], SortBy(s[1..], le), le, k);
    }
  }

  /** `searchLocations(query, limit)`: matches in data order, cut at `limit`,
      parsed, then sorted by rank and, within a rank, by the collation `before`
      (`localeCompare(…, 'ko') <= 0`). */
  function SearchLocations(data: seq<string>, query: string, limit: int, before: (string, string) -> bool)
    : (r: seq<ParsedLocation>)
    ensures AllSpace(query) ==> r == []
    ensures limit >= 0 ==> |r| <= limit
    ensures !AllSpace(query) ==> multiset(r) == multiset(FirstMatches(data, query, limit))
    ensures TotalPreorder(before) ==> SortedBy(r, SearchOrder(NormalizedQuery(query), before))
    ensures forall k | 0 <= k < |r| :: Matches(r[k].fullName, NormalizedQuery(query))
  {
    if Trim(query) == [] then []
    else
      var q := NormalizedQuery(query);
      var taken := FirstMatches(data, query, limit);
      var r := SortBy(taken, SearchOrder(q, before));
      SortByIsPermutation(taken, SearchOrder(q, before));
      SortByIsSorted(taken, SearchOrder(q, before));
      ThenByNameIsTotalPreorder(RankOf(q), before);
      assert |r| == |multiset(r)| == |taken|;
      forall k | 0 <= k < |r| ensures Matches(r[k].fullName, q) {
        assert r[k] in multiset(taken);
        var m :| 0 <= m < |taken| && taken[m] == r[k];
      }
      r
  }

  /** The parsed first `limit` matches, in data order (before sorting). */
  function FirstMatches(data: seq<string>, query: string, limit: int): (r: seq<ParsedLocation>)
    ensures limit >= 0 ==> |r| <= limit
    ensures var m := Matching(data, NormalizedQuery(query));
      && |r| == SliceEnd(|m|, limit)
      && forall k | 0 <= k < |r| :: r[k] == ParseLocationName(m[k])
    ensures forall k | 0 <= k < |r| :: Matches(r[k].fullName, NormalizedQuery(query))
  {
    var matches := Matching(data, NormalizedQuery(query));
    AllLocations(matches[..SliceEnd(|matches|, limit)])
  }

  /** The search filter keeps data order: the matches of a concatenation are the
      matches of each part, in turn. */
  lemma MatchingOfConcat(a: seq<string>, b: seq<string>, query: string)
    ensures Matching(a + b, query) == Matching(a, query) + Matching(b, query)
  {
    FilterOfConcat(a, b, name => Matches(name, query));
  }

  /** Ranks never decrease along the results, and within one rank the full names
      follow the collation. */
  lemma SearchOrdersByRankThenName(data: seq<string>, query: string, limit: int,
                                   before: (string, string) -> bool)
    requires TotalPreorder(before)
    ensures var r := SearchLocations(data, query, limit, before);
      var q := NormalizedQuery(query);
      forall i, j | 0 <= i < j < |r| ::
        && Rank(r[i], q) <= Rank(r[j], q)
        && (Rank(r[i], q) == Rank(r[j], q) ==> before(r[i].fullName, r[j].fullName))
  {
    var r := SearchLocations(data, query, limit, before);
    var le := SearchOrder(NormalizedQuery(query), before);
    forall i, j | 0 <= i < j < |r| ensures le(r[i], r[j]) {
    }
  }

  /** Results that compare equal (same rank, names equal under the collation) keep
      the order of the data. */
  lemma SearchIsStable(data: seq<string>, query: string, limit: int,
                       before: (string, string) -> bool, k: ParsedLocation)
    requires !AllSpace(query) && TotalPreorder(before)
    ensures var le := SearchOrder(NormalizedQuery(query), before);
      Peers(SearchLocations(data, query, limit, before), le, k) == Peers(FirstMatches(data, query, limit), le, k)
  {
    var le := SearchOrder(NormalizedQuery(query), before);
    ThenByNameIsTotalPreorder(RankOf(NormalizedQuery(query)), before);
    SortKeepsPeerOrder(FirstMatches(data, query, limit), le, k);
  }

  /** With at most `limit` matches nothing is cut: each matching name is taken. */
  lemma FoundAmongFirstMatches(data: seq<string>, query: string, limit: int, name: string)
    requires limit >= 0
    requires |Matching(data, NormalizedQuery(query))| <= limit
    requires name in data && Matches(name, NormalizedQuery(query))
    ensures ParseLocationName(name) in FirstMatches(data, query, limit)
  {
    var matches := Matching(data, NormalizedQuery(query));
    assert matches[..SliceEnd(|matches|, limit)] == matches;
    assert name in matches;
    ParsedIsListed(matches, name);
  }

  lemma ParsedIsListed(names: seq<string>, name: string)
    requires name in names
    ensures ParseLocationName(name) in AllLocations(names)
  {
    var m :| 0 <= m < |names| && names[m] == name;
    assert AllLocations(names)[m] == ParseLocationName(name);
  }

  /** When there are at most `limit` matches, every matching name is found. */
  lemma SearchFindsAllMatches(data: seq<string>, query: string, limit: int,
                              before: (string, string) -> bool, name: string)
    requires !AllSpace(query) && limit >= 0
    requires |Matching(data, NormalizedQuery(query))| <= limit
    requires name in data && Matches(name, NormalizedQuery(query))
    ensures ParseLocationName(name) in SearchLocations(data, query, limit, before)
  {
    var taken := FirstMatches(data, query, limit);
    FoundAmongFirstMatches(data, query, limit, name);
    var r := SearchLocations(data, query, limit, before);
    assert multiset(r) == multiset(taken);
    assert ParseLocationName(name) in multiset(r);
  }
}
