/** The charging detail page: it reads the station id from the route
    `/charging-detail/:id` (falling back to the `siteId` query parameter) and
    the connector id from the `gunId` query parameter, then shows the charging
    modal for that pair, or a prompt to scan a QR code when either is missing.

    Navigation targets are plain strings `pathname?query`; query parsing
    follows `URLSearchParams` for names and values that need no
    percent-decoding. */
module ChargingDetail {
  import opened Wrappers
  import opened Text
  import QrScan
  import Routes

  /** A navigation target split into `location.pathname` and `location.search`. */
  datatype Location = Location(pathname: string, search: string)

  /** What the page renders. */
  datatype View = ScanPrompt | Modal(siteId: string, gunId: string)

  /** `parsePath`: a `#` fragment is cut off first, then the rest splits at
      its first `?` into pathname and search. */
  function ParseTarget(target: string): (loc: Location)
    ensures '?' !in loc.pathname && '#' !in loc.pathname && '#' !in loc.search
    ensures loc.search == "" || (loc.search[0] == '?' && |loc.search| > 1)
    ensures var base := SplitFirst(target, '#').0;
            loc.search == "" ==> (base == loc.pathname || base == loc.pathname + "?")
    ensures loc.search != "" ==> SplitFirst(target, '#').0 == loc.pathname + loc.search
  {
    var base := SplitFirst(target, '#').0;
    var t := SplitFirst(base, '?');
    assert t.1.Some? ==> forall x :: x in t.1.value ==> x in base;
    if t.1.None? || t.1.value == "" then Location(t.0, "") else Location(t.0, "?" + t.1.value)
  }

  /** A fragment appended to a target changes neither its pathname nor its
      search. */
  lemma FragmentIgnored(target: string, fragment: string)
    requires '#' !in target
    ensures ParseTarget(target + "#" + fragment) == ParseTarget(target)
  {
    SplitFirstAt(target, '#', fragment);
    SplitFirstAbsent(target, '#');
  }

  /** A target without a fragment and with a non-empty query splits at its
      `?`. */
  lemma PlainTarget(pathname: string, query: string)
    requires '?' !in pathname && '#' !in pathname && '#' !in query && query != ""
    ensures ParseTarget(pathname + "?" + query) == Location(pathname, "?" + query)
  {
    var target := pathname + "?" + query;
    assert target == pathname + ['?'] + query;
    assert '#' !in target;
    SplitFirstAbsent(target, '#');
    SplitFirstAt(pathname, '?', query);
  }

  /** The `:id` segment when `pathname` matches `/charging-detail/:id`. */
  function RouteId(pathname: string): (id: Option<string>)
    ensures id.Some? <==> StartsWith(pathname, Routes.DetailRoute) && |pathname| > |Routes.DetailRoute|
                          && '/' !in pathname[|Routes.DetailRoute|..]
    ensures id.Some? ==> pathname == Routes.DetailRoute + id.value && id.value != ""
  {
    if StartsWith(pathname, Routes.DetailRoute) && |pathname| > |Routes.DetailRoute| && '/' !in pathname[|Routes.DetailRoute|..]
    then Some(pathname[|Routes.DetailRoute|..])
    else None
  }

  /** `new URLSearchParams(search)`: the leading `?` dropped, the rest split at
      `&` into `name=value` pieces; empty pieces are skipped and a piece
      without `=` has an empty value. */
  function Params(search: string): (ps: seq<(string, string)>)
    ensures forall i :: 0 <= i < |ps| ==> '=' !in ps[i].0 && '&' !in ps[i].0 && '&' !in ps[i].1
  {
    var body := if |search| > 0 && search[0] == '?' then search[1..] else search;
    PairsOf(SplitAll(body, '&'))
  }

  /** One pair per non-empty piece, split at its first `=`. */
  function PairsOf(pieces: seq<string>): (ps: seq<(string, string)>)
    ensures |ps| <= |pieces|
    ensures forall i :: 0 <= i < |ps| ==> '=' !in ps[i].0
    ensures (forall j :: 0 <= j < |pieces| ==> '&' !in pieces[j])
            ==> forall i :: 0 <= i < |ps| ==> '&' !in ps[i].0 && '&' !in ps[i].1
  {
    if pieces == [] then []
    else
      var rest := PairsOf(pieces[1..]);
      if pieces[0] == "" then rest
      else
        var kv := SplitFirst(pieces[0], '=');
        assert kv.1.Some? ==> forall x :: x in kv.1.value ==> x in pieces[0];
        assert forall x :: x in kv.0 ==> x in pieces[0];
        [(kv.0, kv.1.GetOr(""))] + rest
  }

  /** `params.get(name)`: the value of the first pair with that name. */
  function Get(params: seq<(string, string)>, name: string): (r: Option<string>)
    ensures r.None? <==> forall i :: 0 <= i < |params| ==> params[i].0 != name
    ensures r.Some? ==> (name, r.value) in params
    ensures r.Some? ==> exists i :: 0 <= i < |params| && params[i] == (name, r.value)
                                    && forall j :: 0 <= j < i ==> params[j].0 != name
  {
    if params == [] then None
    else if params[0].0 == name then Some(params[0].1)
    else
      assert forall i :: 1 <= i < |params| ==> params[i] == params[1..][i - 1];
      Get(params[1..], name)
  }

  /** `id || params.get('siteId')`. */
  function SiteId(id: string, search: string): (r: Option<string>)
    ensures id != "" ==> r == Some(id)
    ensures id == "" ==> r == Get(Params(search), "siteId")
  {
    if id != "" then Some(id) else Get(Params(search), "siteId")
  }

  /** `params.get('gunId')`: the connector never comes from the path. */
  function GunId(search: string): (r: Option<string>)
    ensures r.None? <==> forall i :: 0 <= i < |Params(search)| ==> Params(search)[i].0 != "gunId"
    ensures r.Some? ==> ("gunId", r.value) in Params(search) && '&' !in r.value
  {
    Get(Params(search), "gunId")
  }

  /** The page for route id `id` and query `search`: the modal exactly when
      both identifiers are present and non-empty, and then for exactly those. */
  function DetailView(id: string, search: string): (v: View)
    ensures v.Modal? <==> Truthy(SiteId(id, search)) && Truthy(GunId(search))
    ensures v.Modal? ==> v.siteId == SiteId(id, search).value && v.gunId == GunId(search).value
    ensures v.Modal? ==> v.siteId != "" && v.gunId != ""
  {
    var siteId := SiteId(id, search);
    var gunId := GunId(search);
    if !Truthy(siteId) || !Truthy(gunId) then ScanPrompt else Modal(siteId.value, gunId.value)
  }

  /** Navigating to `target`: the detail page's view when the target matches
      its route, `None` for any other page. */
  function Open(target: string): (v: Option<View>)
    ensures v.Some? <==> RouteId(ParseTarget(target).pathname).Some?
    ensures v.Some? ==> v.value == DetailView(RouteId(ParseTarget(target).pathname).value,
                                              ParseTarget(target).search)
  {
    var loc := ParseTarget(target);
    match RouteId(loc.pathname)
    case None => None
    case Some(id) => Some(DetailView(id, loc.search))
  }

  /** Where the page's one button leads: the scan prompt's button to the
      scanner, the modal's close handler to the home page. */
  function Leave(v: View): (path: string)
    ensures v.ScanPrompt? ==> path == Routes.ScanPath
    ensures v.Modal? ==> path == Routes.HomePath
    ensures path != Routes.DetailRoute
  {
    match v
    case ScanPrompt => Routes.ScanPath
    case Modal(_, _) => Routes.HomePath
  }

  predicate IdChar(c: char) {
    'a' <= c <= 'z' || 'A' <= c <= 'Z' || '0' <= c <= '9'
  }

  /** A non-empty identifier made of ASCII letters and digits. */
  predicate Alphanumeric(s: string) {
    s != "" && forall i :: 0 <= i < |s| ==> IdChar(s[i])
  }

  /** The query parsing of a single `name=value` with no `&` in it. */
  lemma {:induction false} SingleParam(name: string, value: string)
    requires '=' !in name && '&' !in name && '&' !in value && name != ""
    ensures Params("?" + name + "=" + value) == [(name, value)]
  {
    var body := name + "=" + value;
    assert ("?" + name + "=" + value)[1..] == body;
    assert '&' !in body;
    SplitFirstAbsent(body, '&');
    assert SplitAll(body, '&') == [body];
    SplitFirstAt(name, '=', value);
    assert PairsOf([body]) == [(name, value)];
  }

  /** Pairs `URLSearchParams` reads back unchanged: non-empty names without
      `=` or `&`, values without `&`. */
  predicate Encodable(ps: seq<(string, string)>) {
    forall i :: 0 <= i < |ps| ==> ps[i].0 != "" && '=' !in ps[i].0 && '&' !in ps[i].0 && '&' !in ps[i].1
  }

  /** The `name=value` piece of one pair. */
  function Piece(p: (string, string)): string {
    p.0 + "=" + p.1
  }

  function Pieces(ps: seq<(string, string)>): (pieces: seq<string>)
    ensures |pieces| == |ps|
  {
    if ps == [] then [] else [Piece(ps[0])] + Pieces(ps[1..])
  }

  /** A query string: the pieces of the pairs joined with `&`. */
  function Query(ps: seq<(string, string)>): string {
    if ps == [] then ""
    else if |ps| == 1 then Piece(ps[0])
    else Piece(ps[0]) + "&" + Query(ps[1..])
  }

  lemma {:induction false} SplitQuery(ps: seq<(string, string)>)
    requires ps != [] && Encodable(ps)
    ensures SplitAll(Query(ps), '&') == Pieces(ps)
    decreases |ps|
  {
    var piece := Piece(ps[0]);
    assert '&' !in piece;
    if |ps| == 1 {
      SplitFirstAbsent(piece, '&');
      assert Pieces(ps) == [piece] + Pieces([]);
    } else {
      assert Encodable(ps[1..]) by {
        forall i | 0 <= i < |ps[1..]| ensures ps[1..][i] == ps[i + 1] { }
      }
      assert Query(ps) == piece + ['&'] + Query(ps[1..]);
      SplitFirstAt(piece, '&', Query(ps[1..]));
      SplitQuery(ps[1..]);
    }
  }

  lemma {:induction false} PairsOfPieces(ps: seq<(string, string)>)
    requires Encodable(ps)
    ensures PairsOf(Pieces(ps)) == ps
    decreases |ps|
  {
    if ps != [] {
      assert Encodable(ps[1..]) by {
        forall i | 0 <= i < |ps[1..]| ensures ps[1..][i] == ps[i + 1] { }
      }
      PairsOfPieces(ps[1..]);
      var piece := Piece(ps[0]);
      assert piece == ps[0].0 + ['='] + ps[0].1;
      SplitFirstAt(ps[0].0, '=', ps[0].1);
      assert Pieces(ps)[0] == piece && Pieces(ps)[1..] == Pieces(ps[1..]);
      assert [ps[0]] + ps[1..] == ps;
    }
  }

  /** Query parsing reads back exactly the pairs a query string was built
      from, in order, whenever no name or value holds a separator. */
  lemma QueryRoundTrip(ps: seq<(string, string)>)
    requires Encodable(ps)
    ensures Params("?" + Query(ps)) == ps
  {
    assert ("?" + Query(ps))[1..] == Query(ps);
    if ps == [] {
      assert SplitAll("", '&') == [""];
      assert [""][1..] == [];
    } else {
      SplitQuery(ps);
      PairsOfPieces(ps);
    }
  }

  /** Letters and digits include none of the characters that delimit a
      target's parts. */
  lemma AlphanumericHasNoDelimiter(s: string)
    requires Alphanumeric(s)
    ensures '?' !in s && '#' !in s && '/' !in s && '&' !in s
  {
    forall i | 0 <= i < |s| ensures s[i] !in "?#/&" {
      assert IdChar(s[i]);
    }
  }

  /** The route id of a detail path is the segment after the prefix. */
  lemma DetailRouteId(id: string)
    requires id != "" && '/' !in id
    ensures RouteId(Routes.DetailRoute + id) == Some(id)
  {
    assert (Routes.DetailRoute + id)[|Routes.DetailRoute|..] == id;
  }

  /** The connector id of a query holding only `gunId`. */
  lemma GunIdOfQuery(gunId: string)
    requires '&' !in gunId
    ensures GunId("?gunId=" + gunId) == Some(gunId)
  {
    SingleParam("gunId", gunId);
    assert "?gunId=" + gunId == "?" + "gunId" + "=" + gunId;
  }

  /** The navigation a validated scan performs lands on the modal for exactly
      the scanned pair, for identifiers made of letters and digits. */
  lemma ScannedPathRoundTrip(siteId: string, gunId: string)
    requires Alphanumeric(siteId) && Alphanumeric(gunId)
    ensures Open(QrScan.DetailPath(siteId, gunId)) == Some(Modal(siteId, gunId))
  {
    AlphanumericHasNoDelimiter(siteId);
    AlphanumericHasNoDelimiter(gunId);
    var pathname := Routes.DetailRoute + siteId;
    var query := "gunId=" + gunId;
    assert QrScan.DetailPath(siteId, gunId) == pathname + "?" + query;
    assert '?' !in Routes.DetailRoute && '#' !in Routes.DetailRoute;
    assert '?' !in pathname && '#' !in pathname && '#' !in query;
    PlainTarget(pathname, query);
    DetailRouteId(siteId);
    assert "?" + query == "?gunId=" + gunId;
    GunIdOfQuery(gunId);
  }

  /** A target without a connector id, or with an empty one, shows the scan
      prompt whatever its route id. */
  lemma MissingGunShowsPrompt(id: string, search: string)
    requires !Truthy(Get(Params(search), "gunId"))
    ensures DetailView(id, search) == ScanPrompt
  {
  }
}
