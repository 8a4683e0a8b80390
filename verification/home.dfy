/** The home page's station finder: the search and filter predicate, the
    recent-search list, the favourites toggle, the filter indicator and the
    availability guard on starting a charge. The page's handlers update its
    state in place; the decisions they make are functions. */
module Home {
  import opened Wrappers
  import opened Text
  import ChargingDetail
  import Routes

  datatype Gun = Gun(id: string, gunType: string, power: int, status: string)

  datatype Station = Station(id: int, name: string, address: string, guns: seq<Gun>)

  /** `filters`: a gun type and an availability ("" for any) and a minimum
      power in kW (0 for any). */
  datatype Filters = Filters(gunType: string, power: int, availability: string)

  const Cleared: Filters := Filters("", 0, "")
  const HistoryLimit: nat := 5
  const UnavailableAlert: string := "Charging gun is not available. Please select an available one."
  /** The page's fixed stand-in for the wallet balance and its minimum. */
  const MockBalance: int := 100
  const MinimumBalance: int := 10

  predicate Distinct<T(==)>(s: seq<T>) {
    forall i, j :: 0 <= i < j < |s| ==> s[i] != s[j]
  }

  // ---------------------------------------------------------------- filtering

  predicate MatchesSearch(st: Station, search: string) {
    Contains(Lower(st.name), Lower(search)) || Contains(Lower(st.address), Lower(search))
  }

  predicate GunTypeMatch(st: Station, f: Filters) {
    f.gunType == "" || exists i :: 0 <= i < |st.guns| && st.guns[i].gunType == f.gunType
  }

  predicate PowerMatch(st: Station, f: Filters) {
    f.power == 0 || exists i :: 0 <= i < |st.guns| && st.guns[i].power >= f.power
  }

  predicate AvailabilityMatch(st: Station, f: Filters) {
    f.availability == "" || exists i :: 0 <= i < |st.guns| && st.guns[i].status == f.availability
  }

  /** The predicate of `applyFilters`. */
  predicate Keep(st: Station, search: string, f: Filters)
    ensures f == Cleared ==> (Keep(st, search, f) <==> MatchesSearch(st, search))
  {
    MatchesSearch(st, search) && GunTypeMatch(st, f) && PowerMatch(st, f) && AvailabilityMatch(st, f)
  }

  /** `stations.filter(...)`: a station is listed exactly when it passes all
      four conditions. */
  function ApplyFilters(stations: seq<Station>, search: string, f: Filters): (r: seq<Station>)
    ensures forall x :: x in r <==> x in stations && Keep(x, search, f)
    ensures |r| <= |stations|
  {
    if stations == [] then []
    else (if Keep(stations[0], search, f) then [stations[0]] else []) + ApplyFilters(stations[1..], search, f)
  }

  /** `a` is `b` with some elements left out, the rest in their order. */
  predicate IsSubsequence<T(==)>(a: seq<T>, b: seq<T>)
    decreases |b|
  {
    if b == [] then a == []
    else (a != [] && a[0] == b[0] && IsSubsequence(a[1..], b[1..])) || IsSubsequence(a, b[1..])
  }

  /** The filtered list keeps the stations' order. */
  lemma {:induction false} FilterKeepsOrder(stations: seq<Station>, search: string, f: Filters)
    ensures IsSubsequence(ApplyFilters(stations, search, f), stations)
  {
    if stations != [] {
      FilterKeepsOrder(stations[1..], search, f);
      var r := ApplyFilters(stations, search, f);
      var rest := ApplyFilters(stations[1..], search, f);
      if Keep(stations[0], search, f) {
        assert r[0] == stations[0] && r[1..] == rest;
      } else {
        assert r == rest;
      }
    }
  }

  /** An empty search with cleared filters lists every station. */
  lemma {:induction false} ClearedKeepsAll(stations: seq<Station>)
    ensures ApplyFilters(stations, "", Cleared) == stations
  {
    if stations != [] {
      ClearedKeepsAll(stations[1..]);
    }
  }

  /** `g` filters at least as much as `f`: a raised power threshold, a gun type
      or an availability set where there was none or kept as it was. */
  predicate Stricter(f: Filters, g: Filters) {
    && (f.gunType == "" || g.gunType == f.gunType)
    && (f.availability == "" || g.availability == f.availability)
    && (f.power == 0 || (g.power != 0 && g.power >= f.power))
  }

  /** A stricter filter never lists a station the looser one hides, and keeps
      the order. */
  lemma {:induction false} StricterNeverAdds(stations: seq<Station>, search: string, f: Filters, g: Filters)
    requires Stricter(f, g)
    ensures IsSubsequence(ApplyFilters(stations, search, g), ApplyFilters(stations, search, f))
  {
    if stations != [] {
      StricterNeverAdds(stations[1..], search, f, g);
      var st := stations[0];
      var rf, rg := ApplyFilters(stations, search, f), ApplyFilters(stations, search, g);
      var restF, restG := ApplyFilters(stations[1..], search, f), ApplyFilters(stations[1..], search, g);
      if Keep(st, search, g) {
        assert PowerMatch(st, f) by {
          if f.power != 0 {
            var i :| 0 <= i < |st.guns| && st.guns[i].power >= g.power;
            assert st.guns[i].power >= f.power;
          }
        }
        assert rf[0] == st && rf[1..] == restF;
        assert rg[0] == st && rg[1..] == restG;
      } else if Keep(st, search, f) {
        assert rg == restG && rf[1..] == restF;
      } else {
        assert rg == restG && rf == restF;
      }
    }
  }

  /** The filter indicator (`filters.gunType || filters.availability ||
      filters.power > 0`). Over the slider's range it is off exactly for the
      cleared filters. */
  function FiltersActive(f: Filters): (on: bool)
    ensures f == Cleared ==> !on
    ensures !on && f.power >= 0 ==> f == Cleared
    ensures f.gunType != "" || f.availability != "" ==> on
  {
    f.gunType != "" || f.availability != "" || f.power > 0
  }

  // ------------------------------------------------------------ recent searches

  /** `s.filter(item => item !== x)`. */
  function Without<T(==,!new)>(s: seq<T>, x: T): (r: seq<T>)
    ensures forall y :: y in r <==> y in s && y != x
    ensures |r| <= |s|
  {
    if s == [] then []
    else (if s[0] == x then [] else [s[0]]) + Without(s[1..], x)
  }

  /** Removing an item keeps the other elements in their order. */
  lemma {:induction false} WithoutKeepsOrder<T(!new)>(s: seq<T>, x: T)
    ensures IsSubsequence(Without(s, x), s)
  {
    if s != [] {
      WithoutKeepsOrder(s[1..], x);
      var r := Without(s, x);
      if s[0] != x {
        assert r[0] == s[0] && r[1..] == Without(s[1..], x);
      } else {
        assert r == Without(s[1..], x);
      }
    }
  }

  lemma {:induction false} EmptySubsequence<T(!new)>(b: seq<T>)
    ensures IsSubsequence([], b)
    decreases |b|
  {
    if b != [] {
      EmptySubsequence(b[1..]);
    }
  }

  /** A prefix of a subsequence is a subsequence. */
  lemma {:induction false} PrefixOfSubsequence<T(!new)>(a: seq<T>, b: seq<T>, k: nat)
    requires IsSubsequence(a, b) && k <= |a|
    ensures IsSubsequence(a[..k], b)
    decreases |b|
  {
    if k == 0 {
      EmptySubsequence(b);
    } else if a[0] == b[0] && IsSubsequence(a[1..], b[1..]) {
      PrefixOfSubsequence(a[1..], b[1..], k - 1);
      assert a[..k][0] == b[0] && a[..k][1..] == a[1..][..k - 1];
    } else {
      PrefixOfSubsequence(a, b[1..], k);
    }
  }

  /** `[...new Set(s)]`: the first occurrence of each element, in order. */
  function Dedup<T(==,!new)>(s: seq<T>): (r: seq<T>)
    ensures Distinct(r)
    ensures forall y :: y in r <==> y in s
    decreases |s|
  {
    if s == [] then []
    else
      var d := Dedup(s[..|s| - 1]);
      assert forall y :: y in s <==> y in s[..|s| - 1] || y == s[|s| - 1];
      if s[|s| - 1] in d then d else d + [s[|s| - 1]]
  }

  /** The recent-search list after searching for `query`. */
  function UpdateHistory(prev: seq<string>, query: string): (r: seq<string>)
    ensures 1 <= |r| <= HistoryLimit
    ensures r[0] == query
    ensures Distinct(r)
    ensures forall y :: y in r ==> y == query || y in prev
  {
    var all := Dedup([query] + Without(prev, query));
    DedupHead([query] + Without(prev, query));
    assert forall y :: y in all ==> y == query || y in prev by {
      forall y | y in all ensures y == query || y in prev {
        assert y in [query] + Without(prev, query);
      }
    }
    if |all| <= HistoryLimit then all
    else
      assert forall y :: y in all[..HistoryLimit] ==> y in all;
      all[..HistoryLimit]
  }

  lemma {:induction false} DedupHead<T(!new)>(s: seq<T>)
    requires s != []
    ensures Dedup(s) != [] && Dedup(s)[0] == s[0]
    decreases |s|
  {
    if |s| > 1 {
      DedupHead(s[..|s| - 1]);
      assert s[..|s| - 1][0] == s[0];
    }
  }

  lemma {:induction false} DedupOfDistinct<T(!new)>(s: seq<T>)
    requires Distinct(s)
    ensures Dedup(s) == s
    decreases |s|
  {
    if s != [] {
      var n := |s| - 1;
      DedupOfDistinct(s[..n]);
      assert s[n] !in s[..n];
      assert s[..n] + [s[n]] == s;
    }
  }

  lemma {:induction false} WithoutOfDistinct<T(!new)>(s: seq<T>, x: T)
    requires Distinct(s)
    ensures Distinct(Without(s, x))
  {
    if s != [] {
      WithoutOfDistinct(s[1..], x);
      assert s[0] !in s[1..];
    }
  }

  /** With a list that is already distinct, as every list this page builds is,
      the entries after the query are the earlier ones minus the query, in
      their old order, cut to fit. */
  lemma HistoryKeepsOlderEntries(prev: seq<string>, query: string)
    requires Distinct(prev)
    ensures var r := UpdateHistory(prev, query);
            var rest := Without(prev, query);
            r[1..] == rest[..if |rest| < HistoryLimit - 1 then |rest| else HistoryLimit - 1]
    ensures IsSubsequence(UpdateHistory(prev, query)[1..], prev)
  {
    var rest := Without(prev, query);
    WithoutOfDistinct(prev, query);
    assert Distinct([query] + rest) by {
      forall i, j | 0 <= i < j < |rest| + 1 ensures ([query] + rest)[i] != ([query] + rest)[j] {
        assert ([query] + rest)[j] == rest[j - 1];
        assert rest[j - 1] in rest;
        if i > 0 {
          assert ([query] + rest)[i] == rest[i - 1];
        }
      }
    }
    DedupOfDistinct([query] + rest);
    var all := [query] + rest;
    assert all[1..] == rest;
    if |all| > HistoryLimit {
      assert all[..HistoryLimit][1..] == rest[..HistoryLimit - 1];
    }
    WithoutKeepsOrder(prev, query);
    PrefixOfSubsequence(rest, prev, if |rest| < HistoryLimit - 1 then |rest| else HistoryLimit - 1);
    assert rest[..|rest|] == rest;
  }

  // ---------------------------------------------------------------- favourites

  /** `toggleFavorite`: add an absent id at the end, remove every copy of a
      present one. */
  function ToggleFavorite(favorites: seq<int>, id: int): (r: seq<int>)
    ensures id in r <==> id !in favorites
    ensures forall x :: x != id ==> (x in r <==> x in favorites)
  {
    if id in favorites then Without(favorites, id) else favorites + [id]
  }

  /** Toggling twice restores membership, and restores the list itself when
      the id was absent. */
  lemma ToggleTwice(favorites: seq<int>, id: int)
    ensures forall x :: x in ToggleFavorite(ToggleFavorite(favorites, id), id) <==> x in favorites
    ensures id !in favorites ==> ToggleFavorite(ToggleFavorite(favorites, id), id) == favorites
  {
    if id !in favorites {
      WithoutAppended(favorites, id);
    }
  }

  lemma {:induction false} WithoutAppended<T(!new)>(s: seq<T>, x: T)
    requires x !in s
    ensures Without(s + [x], x) == s
  {
    if s != [] {
      assert (s + [x])[1..] == s[1..] + [x];
      WithoutAppended(s[1..], x);
    }
  }

  // ------------------------------------------------------------ start charging

  datatype ChargeStart = Refused(alert: string) | Recharge(alert: string, hash: string) | Navigate(alert: string, hash: string)

  /** `startCharging` on the home page: an unavailable gun is refused with an
      alert and no navigation; otherwise (the stand-in balance always being
      enough) the page goes to the detail route of the gun's id. */
  function StartCharging(gun: Gun, station: Station): (r: ChargeStart)
    ensures r.Refused? <==> gun.status != "available"
    ensures r.Refused? ==> r.alert == UnavailableAlert
    ensures r.Navigate? ==> r.hash == Routes.DetailRoute + gun.id
    ensures !r.Recharge?
  {
    if gun.status != "available" then Refused(UnavailableAlert)
    else if MockBalance < MinimumBalance then Recharge("Insufficient balance. Please recharge.", "/profile")
    else Navigate("Initiating charge for " + gun.gunType + " gun at " + station.name + ".",
                  Routes.DetailRoute + gun.id)
  }

  /** The path the home page navigates to carries no `gunId`, so for any gun
      id that is a single path segment (such as "DC-001") the detail page
      shows the scan prompt, not the modal. A `#` inside the id only cuts the
      route id short; an id that starts with `#` leaves no route id at all. */
  lemma HomeStartLandsOnScanPrompt(gun: Gun, station: Station)
    requires gun.status == "available" && gun.id != "" && gun.id[0] != '#'
    requires '?' !in gun.id && '/' !in gun.id
    ensures ChargingDetail.Open(StartCharging(gun, station).hash) == Some(ChargingDetail.ScanPrompt)
  {
    var target := Routes.DetailRoute + gun.id;
    var k := SplitFirst(gun.id, '#');
    var pathname := Routes.DetailRoute + k.0;
    assert '#' !in Routes.DetailRoute && '?' !in Routes.DetailRoute;
    assert k.0 != "" && k.0 <= gun.id;
    if k.1.Some? {
      assert target == pathname + ['#'] + k.1.value;
      SplitFirstAt(pathname, '#', k.1.value);
    } else {
      SplitFirstAbsent(target, '#');
    }
    assert '?' !in pathname;
    SplitFirstAbsent(pathname, '?');
    assert ChargingDetail.ParseTarget(target) == ChargingDetail.Location(pathname, "");
    assert pathname[|Routes.DetailRoute|..] == k.0;
    assert SplitAll("", '&') == [""];
    assert [""][1..] == [];
    assert ChargingDetail.PairsOf([""]) == [];
    assert ChargingDetail.Params("") == [];
  }

  // ---------------------------------------------------------------- page state

  datatype FilterChange = GunTypeChange(gunType: string) | PowerChange(power: int) | AvailabilityChange(availability: string)

  class StationFinder {
    var stations: seq<Station>
    var filtered: seq<Station>
    var search: string
    var filters: Filters
    var favorites: seq<int>
    var history: seq<string>

    ghost predicate Valid()
      reads this
    {
      Distinct(history) && |history| <= HistoryLimit
    }

    constructor ()
      ensures Valid()
      ensures stations == [] && filtered == [] && search == "" && filters == Cleared
      ensures favorites == [1] && history == []
    {
      stations, filtered := [], [];
      search, filters := "", Cleared;
      favorites, history := [1], [];
    }

    /** The stations arriving with the map: both lists are set to them, which
        agrees with the filter as long as nothing was searched or filtered. */
    method LoadStations(list: seq<Station>)
      requires Valid()
      modifies this
      ensures Valid()
      ensures stations == list && filtered == list
      ensures search == old(search) && filters == old(filters)
      ensures favorites == old(favorites) && history == old(history)
      ensures search == "" && filters == Cleared ==> filtered == ApplyFilters(stations, search, filters)
    {
      stations, filtered := list, list;
      ClearedKeepsAll(list);
    }

    /** `handleSearch`: the lowercased input becomes the search, heads the
        recent-search list, and the list is filtered again. */
    method HandleSearch(input: string)
      requires Valid()
      modifies this
      ensures Valid()
      ensures search == Lower(input)
      ensures history == UpdateHistory(old(history), search)
      ensures filtered == ApplyFilters(stations, search, filters)
      ensures stations == old(stations) && filters == old(filters) && favorites == old(favorites)
    {
      var query := Lower(input);
      search := query;
      history := UpdateHistory(history, query);
      filtered := ApplyFilters(stations, query, filters);
    }

    /** Clicking a recent search: it becomes the search, the history stays. */
    method SelectRecent(item: string)
      requires Valid()
      modifies this
      ensures Valid()
      ensures search == item && filtered == ApplyFilters(stations, item, filters)
      ensures stations == old(stations) && filters == old(filters)
      ensures favorites == old(favorites) && history == old(history)
    {
      search := item;
      filtered := ApplyFilters(stations, item, filters);
    }

    /** `handleFilterChange`: one filter field changes and the list is
        filtered again. */
    method ChangeFilter(change: FilterChange)
      requires Valid()
      modifies this
      ensures Valid()
      ensures filters == match change
                         case GunTypeChange(t) => old(filters).(gunType := t)
                         case PowerChange(p) => old(filters).(power := p)
                         case AvailabilityChange(a) => old(filters).(availability := a)
      ensures filtered == ApplyFilters(stations, search, filters)
      ensures stations == old(stations) && search == old(search)
      ensures favorites == old(favorites) && history == old(history)
    {
      match change {
        case GunTypeChange(t) => filters := filters.(gunType := t);
        case PowerChange(p) => filters := filters.(power := p);
        case AvailabilityChange(a) => filters := filters.(availability := a);
      }
      filtered := ApplyFilters(stations, search, filters);
    }

    /** `clearFilters`. */
    method ClearFilters()
      requires Valid()
      modifies this
      ensures Valid()
      ensures filters == Cleared && filtered == ApplyFilters(stations, search, Cleared)
      ensures search == "" ==> filtered == stations
      ensures stations == old(stations) && search == old(search)
      ensures favorites == old(favorites) && history == old(history)
    {
      filters := Cleared;
      filtered := ApplyFilters(stations, search, Cleared);
      ClearedKeepsAll(stations);
    }

    /** `toggleFavorite`. */
    method ToggleFavoriteOf(id: int)
      requires Valid()
      modifies this
      ensures Valid()
      ensures favorites == ToggleFavorite(old(favorites), id)
      ensures stations == old(stations) && filtered == old(filtered) && search == old(search)
      ensures filters == old(filters) && history == old(history)
    {
      favorites := ToggleFavorite(favorites, id);
    }
  }
}
