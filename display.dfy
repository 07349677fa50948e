/** The outlet records of the map page and the list transforms its event
    handlers apply to them (src/components/MapContainer.js).  Every
    transform is a JavaScript `.map` over the outlet list, with object
    spread for "copy the record and overwrite these properties"; here that
    is `MapSeq` and a datatype update. */
module Display {
  import opened Wrappers

  /** The three Leaflet marker icons: `outletIcon`, `yellowMarkerIcon` and
      `redMarkerIcon`. Only which one an outlet carries matters. */
  datatype Icon = Default | Yellow | Red

  /** A JavaScript number as `parseFloat` produces it: a finite value or NaN. */
  datatype Float = Number(value: real) | NaN

  /** A geographic position in decimal degrees. */
  datatype Point = Point(latitude: Float, longitude: Float)

  /** The `coordinate` payload a search entry may carry. Its shape is the
      search endpoint's business; the page only copies it, so it is kept
      as the JSON text it arrived as and compared for equality only. */
  datatype Coordinate = Coordinate(json: string)

  /** An outlet as the listing endpoint sends it: latitude and longitude
      still unparsed. */
  datatype RawOutlet = RawOutlet(
    name: string,
    address: string,
    operatingHour: string,
    waze: string,
    latitude: string,
    longitude: string,
    coordinate: Option<Coordinate>)

  /** An outlet as the page holds it in state. */
  datatype Outlet = Outlet(
    name: string,
    address: string,
    operatingHour: string,
    waze: string,
    latitude: Float,
    longitude: Float,
    coordinate: Option<Coordinate>,
    icon: Icon)

  /** One element of the search endpoint's `data` array. */
  datatype SearchEntry = SearchEntry(name: string, coordinate: Option<Coordinate>)

  /** `parseFloat`, which the model does not interpret. */
  type Parser = string -> Float

  /** geolib's `getDistance`: whole metres between two points, not interpreted. */
  type Distance = (Point, Point) -> nat

  /** The proximity radius of a marker click, in metres. */
  const HighlightRadius: nat := 5000

  // ---------------------------------------------------------------------
  // Array.prototype.map

  function MapSeq<A, B>(f: A -> B, s: seq<A>): (r: seq<B>)
    ensures |r| == |s|
  {
    if s == [] then [] else [f(s[0])] + MapSeq(f, s[1..])
  }

  lemma {:induction false} MapSeqAt<A, B>(f: A -> B, s: seq<A>, k: nat)
    requires k < |s|
    ensures MapSeq(f, s)[k] == f(s[k])
  {
    if k > 0 {
      MapSeqAt(f, s[1..], k - 1);
    }
  }

  // ---------------------------------------------------------------------
  // Field-wise comparison of outlets

  /** `a` and `b` agree on every property except the icon. */
  predicate SameExceptIcon(a: Outlet, b: Outlet) {
    a.(icon := Default) == b.(icon := Default)
  }

  /** `a` and `b` agree on every property except the icon and the coordinate. */
  predicate SameExceptDisplay(a: Outlet, b: Outlet) {
    a.(icon := Default, coordinate := None) == b.(icon := Default, coordinate := None)
  }

  /** Where the marker of an outlet is drawn and what distances are measured
      from: its parsed latitude and longitude, never its `coordinate`. */
  function Position(o: Outlet): Point {
    Point(o.latitude, o.longitude)
  }

  // ---------------------------------------------------------------------
  // Loading: the callback of `response.data.map` in fetchOutlets

  function FormatOutlet(raw: RawOutlet, parse: Parser): Outlet {
    Outlet(raw.name, raw.address, raw.operatingHour, raw.waze,
           parse(raw.latitude), parse(raw.longitude), raw.coordinate, Default)
  }

  function Format(raws: seq<RawOutlet>, parse: Parser): seq<Outlet> {
    MapSeq(raw => FormatOutlet(raw, parse), raws)
  }

  /** Loading keeps one outlet per raw record, in order, copies every
      property, parses the two coordinates and gives the default icon. */
  lemma FormatAt(raws: seq<RawOutlet>, parse: Parser, k: nat)
    requires k < |raws|
    ensures |Format(raws, parse)| == |raws|
    ensures var o, raw := Format(raws, parse)[k], raws[k];
      o.icon == Default &&
      o.latitude == parse(raw.latitude) && o.longitude == parse(raw.longitude) &&
      o.name == raw.name && o.address == raw.address &&
      o.operatingHour == raw.operatingHour && o.waze == raw.waze &&
      o.coordinate == raw.coordinate
  {
    MapSeqAt(raw => FormatOutlet(raw, parse), raws, k);
  }

  // ---------------------------------------------------------------------
  // Proximity highlight: handleMarkerClick

  function Recolour(o: Outlet, clicked: Outlet, dist: Distance): Outlet {
    var distance := dist(Position(clicked), Position(o));
    o.(icon := if distance <= HighlightRadius then Yellow else Default)
  }

  function Highlight(outlets: seq<Outlet>, clicked: Outlet, dist: Distance): seq<Outlet> {
    MapSeq(o => Recolour(o, clicked, dist), outlets)
  }

  /** A click keeps the list and every property but the icon; an outlet is
      yellow exactly when it lies within the radius of the clicked one,
      and has the default icon otherwise. */
  lemma HighlightAt(outlets: seq<Outlet>, clicked: Outlet, dist: Distance, k: nat)
    requires k < |outlets|
    ensures |Highlight(outlets, clicked, dist)| == |outlets|
    ensures var o, h := outlets[k], Highlight(outlets, clicked, dist)[k];
      SameExceptIcon(h, o) &&
      (h.icon == Yellow <==> dist(Position(clicked), Position(o)) <= HighlightRadius) &&
      (h.icon != Yellow ==> h.icon == Default)
  {
    MapSeqAt(o => Recolour(o, clicked, dist), outlets, k);
  }

  /** When a point is at distance 0 from itself, every outlet drawn where the
      clicked one is drawn, the clicked one included, turns yellow. */
  lemma HighlightIncludesClickedSpot(outlets: seq<Outlet>, clicked: Outlet, dist: Distance, k: nat)
    requires k < |outlets| && Position(outlets[k]) == Position(clicked)
    requires dist(Position(clicked), Position(clicked)) == 0
    ensures Highlight(outlets, clicked, dist)[k].icon == Yellow
  {
    HighlightAt(outlets, clicked, dist, k);
  }

  /** A click overrides every earlier highlight: two lists that differ only
      in their icons highlight the same way. */
  lemma HighlightIgnoresPriorIcons(xs: seq<Outlet>, ys: seq<Outlet>, clicked: Outlet, dist: Distance)
    requires |xs| == |ys|
    requires forall i :: 0 <= i < |xs| ==> SameExceptIcon(xs[i], ys[i])
    ensures Highlight(xs, clicked, dist) == Highlight(ys, clicked, dist)
  {
    var hx, hy := Highlight(xs, clicked, dist), Highlight(ys, clicked, dist);
    forall k | 0 <= k < |xs|
      ensures hx[k] == hy[k]
    {
      MapSeqAt(o => Recolour(o, clicked, dist), xs, k);
      MapSeqAt(o => Recolour(o, clicked, dist), ys, k);
      assert SameExceptIcon(xs[k], ys[k]);
    }
  }

  // ---------------------------------------------------------------------
  // Search: reset, lookup, reconciliation, and the catch path

  function ResetOutlet(o: Outlet): Outlet {
    o.(icon := Default)
  }

  /** `resetMarkers` in handleSearch. */
  function ResetIcons(outlets: seq<Outlet>): seq<Outlet> {
    MapSeq(ResetOutlet, outlets)
  }

  lemma ResetAt(outlets: seq<Outlet>, k: nat)
    requires k < |outlets|
    ensures |ResetIcons(outlets)| == |outlets|
    ensures ResetIcons(outlets)[k] == outlets[k].(icon := Default)
  {
    MapSeqAt(ResetOutlet, outlets, k);
  }

  /** Some search entry is named `name`. */
  ghost predicate HasName(data: seq<SearchEntry>, name: string) {
    exists i :: 0 <= i < |data| && data[i].name == name
  }

  /** `data[i]` is the first search entry named `name`. */
  ghost predicate IsFirstMatch(data: seq<SearchEntry>, name: string, i: int) {
    0 <= i < |data| && data[i].name == name &&
    forall j :: 0 <= j < i ==> data[j].name != name
  }

  /** `searchData.find(item => item.name === name)`. */
  function FindByName(data: seq<SearchEntry>, name: string): (r: Option<SearchEntry>)
    ensures r.Some? ==> r.value in data && r.value.name == name
    ensures r.None? <==> !HasName(data, name)
  {
    if data == [] then None
    else if data[0].name == name then Some(data[0])
    else
      var r := FindByName(data[1..], name);
      assert forall i :: 1 <= i < |data| ==> data[i] == data[1..][i - 1];
      r
  }

  /** The linear scan finds the first entry with the name, whatever follows it. */
  lemma {:induction false} FindByNameFirst(data: seq<SearchEntry>, name: string, i: nat)
    requires IsFirstMatch(data, name, i)
    ensures FindByName(data, name) == Some(data[i])
  {
    if i > 0 {
      assert data[0].name != name;
      FindByNameFirst(data[1..], name, i - 1);
    }
  }

  /** The index of the first entry named `name`. */
  ghost function FirstMatch(data: seq<SearchEntry>, name: string): (i: nat)
    requires HasName(data, name)
    ensures IsFirstMatch(data, name, i)
  {
    if data[0].name == name then 0
    else
      assert HasName(data[1..], name) by {
        var j :| 0 <= j < |data| && data[j].name == name;
        assert data[1..][j - 1].name == name;
      }
      1 + FirstMatch(data[1..], name)
  }

  /** The callback of `resetMarkers.map` in the success path of handleSearch.
      Inside the `if`, `isMatched` is always true, so both conditional
      expressions pick their first branch, the coordinate included. */
  function MatchOutlet(o: Outlet, data: seq<SearchEntry>): Outlet {
    var found := FindByName(data, o.name);
    var isMatched := found.Some?;
    if found.Some? then
      o.(icon := if isMatched then Red else Default,
         coordinate := if isMatched then found.value.coordinate else o.coordinate)
    else
      o
  }

  function Reconcile(reset: seq<Outlet>, data: seq<SearchEntry>): seq<Outlet> {
    MapSeq(o => MatchOutlet(o, data), reset)
  }

  /** The callback of `resetMarkers.map` in the catch path of handleSearch. */
  function ClearOutlet(o: Outlet): Outlet {
    o.(icon := Default, coordinate := o.coordinate)
  }

  function ClearMarkers(reset: seq<Outlet>): seq<Outlet> {
    MapSeq(ClearOutlet, reset)
  }

  lemma ReconcileAt(reset: seq<Outlet>, data: seq<SearchEntry>, k: nat)
    requires k < |reset|
    ensures |Reconcile(reset, data)| == |reset|
    ensures Reconcile(reset, data)[k] == MatchOutlet(reset[k], data)
  {
    MapSeqAt(o => MatchOutlet(o, data), reset, k);
  }

  /** After a successful search, an outlet whose name the results contain
      is red and takes the coordinate of the first entry with that name,
      absent or not; every other property is kept. */
  lemma SearchMatchedAt(outlets: seq<Outlet>, data: seq<SearchEntry>, k: nat, i: nat)
    requires k < |outlets| && IsFirstMatch(data, outlets[k].name, i)
    ensures |Reconcile(ResetIcons(outlets), data)| == |outlets|
    ensures Reconcile(ResetIcons(outlets), data)[k] == outlets[k].(icon := Red, coordinate := data[i].coordinate)
  {
    var reset := ResetIcons(outlets);
    ResetAt(outlets, k);
    ReconcileAt(reset, data, k);
    FindByNameFirst(data, outlets[k].name, i);
  }

  /** After a successful search, an outlet whose name the results lack has
      the default icon, its own coordinate and all its other properties,
      whatever its icon was before. */
  lemma SearchUnmatchedAt(outlets: seq<Outlet>, data: seq<SearchEntry>, k: nat)
    requires k < |outlets| && !HasName(data, outlets[k].name)
    ensures |Reconcile(ResetIcons(outlets), data)| == |outlets|
    ensures Reconcile(ResetIcons(outlets), data)[k] == outlets[k].(icon := Default)
  {
    var reset := ResetIcons(outlets);
    ResetAt(outlets, k);
    ReconcileAt(reset, data, k);
  }

  /** After a successful search the list has the same outlets in the same
      order, each red exactly when some entry bears its name and default
      otherwise (no yellow survives), and only icon and coordinate change. */
  lemma SearchIconAt(outlets: seq<Outlet>, data: seq<SearchEntry>, k: nat)
    requires k < |outlets|
    ensures |Reconcile(ResetIcons(outlets), data)| == |outlets|
    ensures var o, r := outlets[k], Reconcile(ResetIcons(outlets), data)[k];
      SameExceptDisplay(r, o) &&
      r.icon == (if HasName(data, o.name) then Red else Default)
  {
    if HasName(data, outlets[k].name) {
      SearchMatchedAt(outlets, data, k, FirstMatch(data, outlets[k].name));
    } else {
      SearchUnmatchedAt(outlets, data, k);
    }
  }

  /** A search overrides every earlier highlight, yellow or red: two lists
      that differ only in their icons come out of a search the same. */
  lemma SearchIgnoresPriorIcons(xs: seq<Outlet>, ys: seq<Outlet>, data: seq<SearchEntry>)
    requires |xs| == |ys|
    requires forall i :: 0 <= i < |xs| ==> SameExceptIcon(xs[i], ys[i])
    ensures Reconcile(ResetIcons(xs), data) == Reconcile(ResetIcons(ys), data)
  {
    var rx, ry := Reconcile(ResetIcons(xs), data), Reconcile(ResetIcons(ys), data);
    forall k | 0 <= k < |xs|
      ensures rx[k] == ry[k]
    {
      ResetAt(xs, k);
      ResetAt(ys, k);
      ReconcileAt(ResetIcons(xs), data, k);
      ReconcileAt(ResetIcons(ys), data, k);
      assert SameExceptIcon(xs[k], ys[k]);
    }
  }

  /** The catch path of a search leaves exactly the reset list: every icon
      default, every coordinate as it was. */
  lemma FailedSearchIsReset(outlets: seq<Outlet>)
    ensures ClearMarkers(ResetIcons(outlets)) == ResetIcons(outlets)
    ensures forall k :: 0 <= k < |outlets| ==>
      ResetIcons(outlets)[k] == outlets[k].(icon := Default)
  {
    var reset := ResetIcons(outlets);
    forall k | 0 <= k < |outlets|
      ensures ClearMarkers(reset)[k] == reset[k] == outlets[k].(icon := Default)
    {
      ResetAt(outlets, k);
      MapSeqAt(ClearOutlet, reset, k);
    }
  }
}
