/** The public listings page (`app/inmuebles/page.tsx`): the six filters it turns into
    query parameters, the order the visitor chooses for the fetched listings, the cities
    offered in the city filter, and the labels of the property types. */
module ListingsPage {
  import opened Wrappers
  import opened Strings
  import SeqEdits

  /** The fields of a fetched listing the page computes with; publicadoEn is the
      publication time in milliseconds. */
  datatype Card = Card(id: int, tipo: string, precio: real, area: Option<real>,
                       ciudad: Option<string>, publicadoEn: int)

  datatype Filters = Filters(tipo: string, ciudad: string, minPrecio: string,
                             maxPrecio: string, minHabitaciones: string, minBanos: string)

  const NoFilters := Filters("", "", "", "", "", "")
  const StatusParam := ("estado", "DISPONIBLE")

  // ---- query parameters ----

  /** The filters as parameter name and text, in the order they are appended. */
  function FilterFields(f: Filters): (r: seq<(string, string)>)
    ensures |r| == 6
  {
    [("tipo", f.tipo), ("ciudad", f.ciudad), ("minPrecio", f.minPrecio),
     ("maxPrecio", f.maxPrecio), ("minHabitaciones", f.minHabitaciones),
     ("minBanos", f.minBanos)]
  }

  /** `if (value) params.append(name, value)`. */
  function Param(name: string, value: string): (r: seq<(string, string)>)
    ensures forall p :: p in r <==> p == (name, value) && value != ""
  {
    if value != "" then [(name, value)] else []
  }

  /** The URLSearchParams of the fetch. */
  function ParamsOf(f: Filters): seq<(string, string)> {
    Param("tipo", f.tipo) + Param("ciudad", f.ciudad) + Param("minPrecio", f.minPrecio)
    + Param("maxPrecio", f.maxPrecio) + Param("minHabitaciones", f.minHabitaciones)
    + Param("minBanos", f.minBanos) + [StatusParam]
  }

  method BuildParams(f: Filters) returns (params: seq<(string, string)>)
    ensures params == ParamsOf(f)
  {
    params := [];
    if f.tipo != "" { params := params + [("tipo", f.tipo)]; }
    assert params == Param("tipo", f.tipo);
    if f.ciudad != "" { params := params + [("ciudad", f.ciudad)]; }
    assert params == Param("tipo", f.tipo) + Param("ciudad", f.ciudad);
    ghost var front := params;
    if f.minPrecio != "" { params := params + [("minPrecio", f.minPrecio)]; }
    assert params == front + Param("minPrecio", f.minPrecio);
    front := params;
    if f.maxPrecio != "" { params := params + [("maxPrecio", f.maxPrecio)]; }
    assert params == front + Param("maxPrecio", f.maxPrecio);
    front := params;
    if f.minHabitaciones != "" { params := params + [("minHabitaciones", f.minHabitaciones)]; }
    assert params == front + Param("minHabitaciones", f.minHabitaciones);
    front := params;
    if f.minBanos != "" { params := params + [("minBanos", f.minBanos)]; }
    assert params == front + Param("minBanos", f.minBanos);
    params := params + [StatusParam];
  }

  /** The parameters hold exactly the non-empty filters, at most once each, and always
      end with the status. */
  lemma ParamsAreNonEmptyFilters(f: Filters, p: (string, string))
    ensures var ps := ParamsOf(f);
      && ps[|ps| - 1] == StatusParam
      && 1 <= |ps| <= 7
      && (p in ps[..|ps| - 1] <==> p in FilterFields(f) && p.1 != "")
  {
    var ps := ParamsOf(f);
    var front := Param("tipo", f.tipo) + Param("ciudad", f.ciudad) + Param("minPrecio", f.minPrecio)
      + Param("maxPrecio", f.maxPrecio) + Param("minHabitaciones", f.minHabitaciones)
      + Param("minBanos", f.minBanos);
    assert ps == front + [StatusParam];
    assert ps[..|ps| - 1] == front;
  }

  /** With the filters reset only the status is sent. */
  lemma ResetSendsOnlyStatus()
    ensures ParamsOf(NoFilters) == [StatusParam]
  {
  }

  // ---- ordering ----

  /** The orders of the select; any other value of `orderBy` is Unlisted. */
  datatype Order = PrecioAsc | PrecioDesc | AreaAsc | AreaDesc | Recientes | Unlisted

  function OrderOf(orderBy: string): (r: Order)
    ensures r.Unlisted? <==>
      orderBy !in ["precio_asc", "precio_desc", "area_asc", "area_desc", "recientes"]
  {
    if orderBy == "precio_asc" then PrecioAsc
    else if orderBy == "precio_desc" then PrecioDesc
    else if orderBy == "area_asc" then AreaAsc
    else if orderBy == "area_desc" then AreaDesc
    else if orderBy == "recientes" then Recientes
    else Unlisted
  }

  /** The comparator of each order is `key(a) - key(b)`: this is that key. `area || 0`
      reads a missing area as 0; an unlisted order compares everything as equal. */
  function Key(order: Order, c: Card): real {
    match order
    case PrecioAsc => c.precio
    case PrecioDesc => -c.precio
    case AreaAsc => c.area.GetOr(0.0)
    case AreaDesc => -c.area.GetOr(0.0)
    case Recientes => -(c.publicadoEn as real)
    case Unlisted => 0.0
  }

  predicate SortedBy(order: Order, s: seq<Card>) {
    forall i, j :: 0 <= i < j < |s| ==> Key(order, s[i]) <= Key(order, s[j])
  }

  /** x placed before the first element whose key is not smaller; the elements of s
      come after x's predecessors, so equal keys keep their order. */
  function Insert(order: Order, x: Card, s: seq<Card>): (r: seq<Card>)
    ensures |r| == |s| + 1
    ensures forall c :: c in r ==> c == x || c in s
  {
    if s == [] || Key(order, x) <= Key(order, s[0]) then [x] + s
    else [s[0]] + Insert(order, x, s[1..])
  }

  lemma {:induction false} InsertSorted(order: Order, x: Card, s: seq<Card>)
    requires SortedBy(order, s)
    ensures SortedBy(order, Insert(order, x, s))
  {
    if s != [] && Key(order, x) > Key(order, s[0]) {
      InsertSorted(order, x, s[1..]);
      var rest := Insert(order, x, s[1..]);
      forall k | 0 <= k < |rest| ensures Key(order, s[0]) <= Key(order, rest[k]) {
        assert rest[k] in rest;
      }
    }
  }

  lemma {:induction false} InsertMultiset(order: Order, x: Card, s: seq<Card>)
    ensures multiset(Insert(order, x, s)) == multiset(s) + multiset{x}
  {
    if s != [] && Key(order, x) > Key(order, s[0]) {
      InsertMultiset(order, x, s[1..]);
      assert s == [s[0]] + s[1..];
    }
  }

  /** `[...inmuebles].sort(cmp)`: the stable sort of a copy by the order's key. */
  function Sort(order: Order, s: seq<Card>): (r: seq<Card>)
    ensures |r| == |s|
  {
    if s == [] then [] else Insert(order, s[0], Sort(order, s[1..]))
  }

  lemma {:induction false} SortIsSorted(order: Order, s: seq<Card>)
    ensures SortedBy(order, Sort(order, s))
  {
    if s != [] {
      SortIsSorted(order, s[1..]);
      InsertSorted(order, s[0], Sort(order, s[1..]));
    }
  }

  /** Sorting only reorders: the shown list is a permutation of the fetched one. */
  lemma {:induction false} SortIsPermutation(order: Order, s: seq<Card>)
    ensures multiset(Sort(order, s)) == multiset(s)
  {
    if s != [] {
      SortIsPermutation(order, s[1..]);
      InsertMultiset(order, s[0], Sort(order, s[1..]));
      assert s == [s[0]] + s[1..];
    }
  }

  /** Ascending price gives non-decreasing prices, descending non-increasing ones. */
  lemma PriceOrders(s: seq<Card>, i: nat, j: nat)
    requires i < j < |s|
    ensures Sort(PrecioAsc, s)[i].precio <= Sort(PrecioAsc, s)[j].precio
    ensures Sort(PrecioDesc, s)[i].precio >= Sort(PrecioDesc, s)[j].precio
  {
    SortIsSorted(PrecioAsc, s);
    SortIsSorted(PrecioDesc, s);
    assert Key(PrecioAsc, Sort(PrecioAsc, s)[i]) <= Key(PrecioAsc, Sort(PrecioAsc, s)[j]);
    assert Key(PrecioDesc, Sort(PrecioDesc, s)[i]) <= Key(PrecioDesc, Sort(PrecioDesc, s)[j]);
  }

  /** The area orders read a listing without area as area 0. */
  lemma AreaOrders(s: seq<Card>, i: nat, j: nat)
    requires i < j < |s|
    ensures Sort(AreaAsc, s)[i].area.GetOr(0.0) <= Sort(AreaAsc, s)[j].area.GetOr(0.0)
  {
    SortIsSorted(AreaAsc, s);
    assert Key(AreaAsc, Sort(AreaAsc, s)[i]) <= Key(AreaAsc, Sort(AreaAsc, s)[j]);
  }

  /** `recientes` puts the newest publication first. */
  lemma RecentFirst(s: seq<Card>, i: nat, j: nat)
    requires i < j < |s|
    ensures Sort(Recientes, s)[i].publicadoEn >= Sort(Recientes, s)[j].publicadoEn
  {
    SortIsSorted(Recientes, s);
    assert Key(Recientes, Sort(Recientes, s)[i]) <= Key(Recientes, Sort(Recientes, s)[j]);
  }

  /** Inserting x leaves the cards of each key in their order, x going first among
      those of its own key. */
  lemma {:induction false} InsertKeepsTies(order: Order, x: Card, t: seq<Card>, k: real, p: Card -> bool)
    requires forall c :: p(c) == (Key(order, c) == k)
    ensures SeqEdits.Filter(Insert(order, x, t), p) == (if p(x) then [x] else []) + SeqEdits.Filter(t, p)
  {
    if t != [] && Key(order, x) > Key(order, t[0]) {
      InsertKeepsTies(order, x, t[1..], k, p);
      assert ([t[0]] + Insert(order, x, t[1..]))[1..] == Insert(order, x, t[1..]);
    } else {
      assert ([x] + t)[1..] == t;
    }
  }

  /** The sort is stable: cards with equal keys keep their fetched relative order. */
  lemma {:induction false} SortIsStable(order: Order, s: seq<Card>, k: real, p: Card -> bool)
    requires forall c :: p(c) == (Key(order, c) == k)
    ensures SeqEdits.Filter(Sort(order, s), p) == SeqEdits.Filter(s, p)
  {
    if s != [] {
      SortIsStable(order, s[1..], k, p);
      InsertKeepsTies(order, s[0], Sort(order, s[1..]), k, p);
    }
  }

  /** When every comparison gives 0 the stable sort leaves the list as fetched. */
  lemma {:induction false} UnlistedOrderKeepsList(s: seq<Card>)
    ensures Sort(Unlisted, s) == s
  {
    if s != [] {
      UnlistedOrderKeepsList(s[1..]);
      assert s == [s[0]] + s[1..];
    }
  }

  // ---- cities ----

  predicate StrictlySorted(s: seq<string>) {
    forall i, j :: 0 <= i < j < |s| ==> Less(s[i], s[j])
  }

  /** x added to a strictly sorted list unless it is there already. */
  function InsertCity(x: string, s: seq<string>): (r: seq<string>)
    requires StrictlySorted(s)
    ensures StrictlySorted(r)
    ensures forall y :: y in r <==> y == x || y in s
  {
    if s == [] then [x]
    else if x == s[0] then s
    else if Less(x, s[0]) then
      assert forall j :: 0 < j < |s| ==> Less(x, s[j]) by {
        forall j | 0 < j < |s| ensures Less(x, s[j]) { LessTransitive(x, s[0], s[j]); }
      }
      [x] + s
    else
      LessTotal(x, s[0]);
      var rest := InsertCity(x, s[1..]);
      assert forall y :: y in rest ==> Less(s[0], y);
      [s[0]] + rest
  }

  predicate HasCity(cards: seq<Card>, y: string) {
    exists i :: 0 <= i < |cards| && cards[i].ciudad == Some(y)
  }

  lemma HasCityCons(cards: seq<Card>)
    requires cards != []
    ensures forall y :: HasCity(cards, y) <==> cards[0].ciudad == Some(y) || HasCity(cards[1..], y)
  {
    forall y ensures HasCity(cards, y) <==> cards[0].ciudad == Some(y) || HasCity(cards[1..], y) {
      if HasCity(cards[1..], y) {
        var i :| 0 <= i < |cards[1..]| && cards[1..][i].ciudad == Some(y);
        assert cards[i + 1].ciudad == Some(y);
      }
      if HasCity(cards, y) && cards[0].ciudad != Some(y) {
        var i :| 0 <= i < |cards| && cards[i].ciudad == Some(y);
        assert cards[1..][i - 1] == cards[i];
      }
    }
  }

  /** `Array.from(new Set(cities without nulls)).sort()`. */
  function UniqueCities(cards: seq<Card>): (r: seq<string>)
    ensures StrictlySorted(r)
    ensures forall y :: y in r <==> HasCity(cards, y)
  {
    if cards == [] then []
    else
      HasCityCons(cards);
      var rest := UniqueCities(cards[1..]);
      match cards[0].ciudad
      case None => rest
      case Some(c) => InsertCity(c, rest)
  }

  /** A strictly sorted list holds no city twice. */
  lemma NoDuplicates(s: seq<string>, i: nat, j: nat)
    requires StrictlySorted(s) && i < j < |s|
    ensures s[i] != s[j]
  {
    LessIrreflexive(s[i]);
  }

  // ---- labels ----

  /** `labels[tipo] || tipo`. */
  function TipoLabel(tipo: string): (r: string)
    ensures tipo !in ["APARTAMENTO", "CASA", "PREDIO_RURAL", "FINCA", "OFICINA", "LOCAL_COMERCIAL"] ==> r == tipo
  {
    if tipo == "APARTAMENTO" then "Apartamento"
    else if tipo == "CASA" then "Casa"
    else if tipo == "PREDIO_RURAL" then "Predio Rural"
    else if tipo == "FINCA" then "Finca"
    else if tipo == "OFICINA" then "Oficina"
    else if tipo == "LOCAL_COMERCIAL" then "Local Comercial"
    else tipo
  }

  /** The six known codes get their own, distinct labels. */
  lemma KnownLabels()
    ensures TipoLabel("APARTAMENTO") == "Apartamento" && TipoLabel("CASA") == "Casa"
    ensures TipoLabel("PREDIO_RURAL") == "Predio Rural" && TipoLabel("FINCA") == "Finca"
    ensures TipoLabel("OFICINA") == "Oficina" && TipoLabel("LOCAL_COMERCIAL") == "Local Comercial"
  {
  }

  // ---- page state ----

  /** What the fetch gave: it threw or answered with a status that is not ok, or
      answered `success` with `data` (None when data is not an array). */
  datatype FetchResult = FetchFailed | Answered(success: bool, data: Option<seq<Card>>)

  class Page {
    var inmuebles: seq<Card>
    var ciudades: seq<string>
    var filters: Filters
    var orderBy: string

    constructor ()
      ensures inmuebles == [] && ciudades == [] && filters == NoFilters && orderBy == "recientes"
    {
      inmuebles := [];
      ciudades := [];
      filters := NoFilters;
      orderBy := "recientes";
    }

    /** filteredInmuebles: the shown order, computed on a copy. */
    function Shown(): (r: seq<Card>)
      reads this
      ensures multiset(r) == multiset(inmuebles)
      ensures SortedBy(OrderOf(orderBy), r)
    {
      SortIsPermutation(OrderOf(orderBy), inmuebles);
      SortIsSorted(OrderOf(orderBy), inmuebles);
      Sort(OrderOf(orderBy), inmuebles)
    }

    /** The end of fetchInmuebles. */
    method Loaded(result: FetchResult)
      modifies this
      ensures result.Answered? && result.success && result.data.Some? ==>
        inmuebles == result.data.value && ciudades == UniqueCities(result.data.value)
      ensures !(result.Answered? && result.success && result.data.Some?) ==>
        inmuebles == [] && ciudades == []
      ensures filters == old(filters) && orderBy == old(orderBy)
    {
      if result.Answered? && result.success && result.data.Some? {
        inmuebles := result.data.value;
        ciudades := UniqueCities(result.data.value);
      } else {
        inmuebles := [];
        ciudades := [];
      }
    }

    method ResetFilters()
      modifies this
      ensures filters == NoFilters
      ensures inmuebles == old(inmuebles) && ciudades == old(ciudades) && orderBy == old(orderBy)
    {
      filters := NoFilters;
    }
  }
}
