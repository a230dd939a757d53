/** The public listing endpoint: its query-string parameters become a store predicate
    (`where`), a page window and an ordering. `Matches` gives the predicate its meaning
    over one stored listing; `Satisfies` states the same filter straight from the
    parameters, as a reference. */
module PublicListing {
  import opened Wrappers
  import opened Strings
  import Pagination
  import SeqEdits
  import opened Http

  /** A stored listing, with the columns the filter reads. Nullable columns are Options. */
  datatype Listing = Listing(
    titulo: string, descripcion: string, tipo: string, precio: int,
    area: Option<real>, habitaciones: Option<int>, banos: Option<int>, estrato: Option<int>,
    tieneGaraje: bool, amoblado: bool, destacado: bool, accesoAgua: bool, accesoLuz: bool,
    topografia: Option<string>, viaAcceso: Option<string>,
    direccion: string, ciudad: string, departamento: string, estado: string)

  /** The query string. Text parameters are what `searchParams.get` returns (None for a
      missing one); numeric ones are already parsed, None meaning missing or empty. */
  datatype QueryParams = QueryParams(
    tipo: Option<string>, ciudad: Option<string>, departamento: Option<string>,
    minPrecio: Option<int>, maxPrecio: Option<int>,
    minHabitaciones: Option<int>, minBanos: Option<int>,
    minArea: Option<real>, maxArea: Option<real>, estrato: Option<int>,
    estado: Option<string>, destacado: Option<string>, search: Option<string>,
    tieneGaraje: Option<string>, amoblado: Option<string>,
    accesoAgua: Option<string>, accesoLuz: Option<string>,
    topografia: Option<string>, viaAcceso: Option<string>,
    page: Option<int>, limit: Option<int>, orderBy: Option<string>, orderDir: Option<string>)

  /** `{ gte, lte }`, both inclusive. */
  datatype Bounds = Bounds(gte: Option<real>, lte: Option<real>)

  /** The `where` object: one optional entry per key the handler may set. Text entries
      on ciudad and departamento are case-insensitive `contains`; `textSearch` is the
      `OR` over five text columns. */
  datatype Where = Where(
    estado: Option<string>, tipo: Option<string>,
    ciudad: Option<string>, departamento: Option<string>,
    precio: Option<Bounds>, habitaciones: Option<int>, banos: Option<int>,
    area: Option<Bounds>, estrato: Option<int>,
    destacado: Option<bool>, tieneGaraje: Option<bool>, amoblado: Option<bool>,
    accesoAgua: Option<bool>, accesoLuz: Option<bool>,
    topografia: Option<string>, viaAcceso: Option<string>,
    textSearch: Option<string>)

  const EmptyWhere := Where(None, None, None, None, None, None, None, None, None,
                            None, None, None, None, None, None, None, None)

  const DefaultLimit := 24

  /** A text parameter counts only when truthy: present and non-empty. */
  predicate Present(p: Option<string>) {
    p.Some? && p.value != ""
  }

  /** A boolean parameter: "true" is true, any other non-empty text is false. */
  function FlagOf(p: Option<string>): Option<bool> {
    if Present(p) then Some(p.value == "true") else None
  }

  function TextOf(p: Option<string>): Option<string> {
    if Present(p) then p else None
  }

  function EstadoOf(p: QueryParams): string {
    if Present(p.estado) then p.estado.value else "DISPONIBLE"
  }

  function BoundsOf(lo: Option<real>, hi: Option<real>): Option<Bounds> {
    if lo.Some? || hi.Some? then Some(Bounds(lo, hi)) else None
  }

  function RealOf(n: Option<int>): Option<real> {
    if n.Some? then Some(n.value as real) else None
  }

  /** The predicate the handler builds, written as one record value. */
  function WhereOf(p: QueryParams): Where {
    Where(
      estado := Some(EstadoOf(p)),
      tipo := TextOf(p.tipo),
      ciudad := TextOf(p.ciudad),
      departamento := TextOf(p.departamento),
      precio := BoundsOf(RealOf(p.minPrecio), RealOf(p.maxPrecio)),
      habitaciones := p.minHabitaciones,
      banos := p.minBanos,
      area := BoundsOf(p.minArea, p.maxArea),
      estrato := p.estrato,
      destacado := FlagOf(p.destacado),
      tieneGaraje := FlagOf(p.tieneGaraje),
      amoblado := FlagOf(p.amoblado),
      accesoAgua := FlagOf(p.accesoAgua),
      accesoLuz := FlagOf(p.accesoLuz),
      topografia := TextOf(p.topografia),
      viaAcceso := TextOf(p.viaAcceso),
      textSearch := TextOf(p.search))
  }

  /** The handler's chain of `if` blocks, each adding one key to `where`. The chain is
      split in four runs of consecutive blocks, in source order. */
  method BuildWhere(p: QueryParams) returns (w: Where)
    ensures w == WhereOf(p)
  {
    w := EmptyWhere;
    w := AddStatusAndPlace(p, w);
    w := AddNumberRanges(p, w);
    w := AddFeatureFlags(p, w);
    w := AddRuralAndText(p, w);
  }

  method AddStatusAndPlace(p: QueryParams, w0: Where) returns (w: Where)
    ensures w == w0.(estado := Some(EstadoOf(p)), tipo := if Present(p.tipo) then p.tipo else w0.tipo,
                     ciudad := if Present(p.ciudad) then p.ciudad else w0.ciudad,
                     departamento := if Present(p.departamento) then p.departamento else w0.departamento)
  {
    w := w0;
    var estado := if Present(p.estado) then p.estado.value else "DISPONIBLE";
    if estado != "" { w := w.(estado := Some(estado)); }
    if Present(p.tipo) { w := w.(tipo := p.tipo); }
    if Present(p.ciudad) { w := w.(ciudad := p.ciudad); }
    if Present(p.departamento) { w := w.(departamento := p.departamento); }
  }

  method AddNumberRanges(p: QueryParams, w0: Where) returns (w: Where)
    ensures w == w0.(precio := if p.minPrecio.Some? || p.maxPrecio.Some? then BoundsOf(RealOf(p.minPrecio), RealOf(p.maxPrecio)) else w0.precio,
                     habitaciones := if p.minHabitaciones.Some? then p.minHabitaciones else w0.habitaciones,
                     banos := if p.minBanos.Some? then p.minBanos else w0.banos,
                     area := if p.minArea.Some? || p.maxArea.Some? then BoundsOf(p.minArea, p.maxArea) else w0.area,
                     estrato := if p.estrato.Some? then p.estrato else w0.estrato)
  {
    w := w0;
    if p.minPrecio.Some? || p.maxPrecio.Some? {
      var b := Bounds(None, None);
      if p.minPrecio.Some? { b := b.(gte := Some(p.minPrecio.value as real)); }
      if p.maxPrecio.Some? { b := b.(lte := Some(p.maxPrecio.value as real)); }
      w := w.(precio := Some(b));
    }
    if p.minHabitaciones.Some? { w := w.(habitaciones := p.minHabitaciones); }
    if p.minBanos.Some? { w := w.(banos := p.minBanos); }
    if p.minArea.Some? || p.maxArea.Some? {
      var b := Bounds(None, None);
      if p.minArea.Some? { b := b.(gte := p.minArea); }
      if p.maxArea.Some? { b := b.(lte := p.maxArea); }
      w := w.(area := Some(b));
    }
    if p.estrato.Some? { w := w.(estrato := p.estrato); }
  }

  method AddFeatureFlags(p: QueryParams, w0: Where) returns (w: Where)
    ensures w == w0.(destacado := if Present(p.destacado) then FlagOf(p.destacado) else w0.destacado,
                     tieneGaraje := if Present(p.tieneGaraje) then FlagOf(p.tieneGaraje) else w0.tieneGaraje,
                     amoblado := if Present(p.amoblado) then FlagOf(p.amoblado) else w0.amoblado,
                     accesoAgua := if Present(p.accesoAgua) then FlagOf(p.accesoAgua) else w0.accesoAgua,
                     accesoLuz := if Present(p.accesoLuz) then FlagOf(p.accesoLuz) else w0.accesoLuz)
  {
    w := w0;
    if Present(p.destacado) { w := w.(destacado := Some(p.destacado.value == "true")); }
    if Present(p.tieneGaraje) { w := w.(tieneGaraje := Some(p.tieneGaraje.value == "true")); }
    if Present(p.amoblado) { w := w.(amoblado := Some(p.amoblado.value == "true")); }
    if Present(p.accesoAgua) { w := w.(accesoAgua := Some(p.accesoAgua.value == "true")); }
    if Present(p.accesoLuz) { w := w.(accesoLuz := Some(p.accesoLuz.value == "true")); }
  }

  method AddRuralAndText(p: QueryParams, w0: Where) returns (w: Where)
    ensures w == w0.(topografia := if Present(p.topografia) then p.topografia else w0.topografia,
                     viaAcceso := if Present(p.viaAcceso) then p.viaAcceso else w0.viaAcceso,
                     textSearch := if Present(p.search) then p.search else w0.textSearch)
  {
    w := w0;
    if Present(p.topografia) { w := w.(topografia := p.topografia); }
    if Present(p.viaAcceso) { w := w.(viaAcceso := p.viaAcceso); }
    if Present(p.search) { w := w.(textSearch := p.search); }
  }

  predicate InBounds(x: real, b: Bounds) {
    (b.gte.Some? ==> x >= b.gte.value) && (b.lte.Some? ==> x <= b.lte.value)
  }

  /** The free-text `OR`: the text occurs, ignoring case, in one of five columns. */
  predicate TextHit(l: Listing, q: string) {
    ContainsInsensitive(l.titulo, q) || ContainsInsensitive(l.descripcion, q)
    || ContainsInsensitive(l.ciudad, q) || ContainsInsensitive(l.direccion, q)
    || ContainsInsensitive(l.departamento, q)
  }

  /** What the store does with `where`: every entry present must hold; a comparison on a
      null column fails. */
  predicate Matches(l: Listing, w: Where) {
    && (w.estado.Some? ==> l.estado == w.estado.value)
    && (w.tipo.Some? ==> l.tipo == w.tipo.value)
    && (w.ciudad.Some? ==> ContainsInsensitive(l.ciudad, w.ciudad.value))
    && (w.departamento.Some? ==> ContainsInsensitive(l.departamento, w.departamento.value))
    && (w.precio.Some? ==> InBounds(l.precio as real, w.precio.value))
    && (w.habitaciones.Some? ==> l.habitaciones == w.habitaciones)
    && (w.banos.Some? ==> l.banos == w.banos)
    && (w.area.Some? ==> l.area.Some? && InBounds(l.area.value, w.area.value))
    && (w.estrato.Some? ==> l.estrato == w.estrato)
    && (w.destacado.Some? ==> l.destacado == w.destacado.value)
    && (w.tieneGaraje.Some? ==> l.tieneGaraje == w.tieneGaraje.value)
    && (w.amoblado.Some? ==> l.amoblado == w.amoblado.value)
    && (w.accesoAgua.Some? ==> l.accesoAgua == w.accesoAgua.value)
    && (w.accesoLuz.Some? ==> l.accesoLuz == w.accesoLuz.value)
    && (w.topografia.Some? ==> l.topografia == w.topografia)
    && (w.viaAcceso.Some? ==> l.viaAcceso == w.viaAcceso)
    && (w.textSearch.Some? ==> TextHit(l, w.textSearch.value))
  }

  /** The filter read directly off the parameters: each present parameter is one
      condition, an absent or empty one is none. */
  predicate Satisfies(l: Listing, p: QueryParams) {
    && l.estado == EstadoOf(p)
    && (Present(p.tipo) ==> l.tipo == p.tipo.value)
    && (Present(p.ciudad) ==> ContainsInsensitive(l.ciudad, p.ciudad.value))
    && (Present(p.departamento) ==> ContainsInsensitive(l.departamento, p.departamento.value))
    && (p.minPrecio.Some? ==> l.precio >= p.minPrecio.value)
    && (p.maxPrecio.Some? ==> l.precio <= p.maxPrecio.value)
    && (p.minHabitaciones.Some? ==> l.habitaciones == p.minHabitaciones)
    && (p.minBanos.Some? ==> l.banos == p.minBanos)
    && (p.minArea.Some? ==> l.area.Some? && l.area.value >= p.minArea.value)
    && (p.maxArea.Some? ==> l.area.Some? && l.area.value <= p.maxArea.value)
    && (p.estrato.Some? ==> l.estrato == p.estrato)
    && (Present(p.destacado) ==> (l.destacado <==> p.destacado.value == "true"))
    && (Present(p.tieneGaraje) ==> (l.tieneGaraje <==> p.tieneGaraje.value == "true"))
    && (Present(p.amoblado) ==> (l.amoblado <==> p.amoblado.value == "true"))
    && (Present(p.accesoAgua) ==> (l.accesoAgua <==> p.accesoAgua.value == "true"))
    && (Present(p.accesoLuz) ==> (l.accesoLuz <==> p.accesoLuz.value == "true"))
    && (Present(p.topografia) ==> l.topografia == p.topografia)
    && (Present(p.viaAcceso) ==> l.viaAcceso == p.viaAcceso)
    && (Present(p.search) ==> TextHit(l, p.search.value))
  }

  /** The built predicate means exactly the parameter-by-parameter filter. */
  lemma WhereMeansSatisfies(l: Listing, p: QueryParams)
    ensures Matches(l, WhereOf(p)) <==> Satisfies(l, p)
  {
  }

  /** The status entry is always there; it falls back to DISPONIBLE when `estado` is
      missing or empty. */
  lemma StatusAlwaysConstrained(p: QueryParams)
    ensures WhereOf(p).estado.Some?
    ensures !Present(p.estado) ==> WhereOf(p).estado == Some("DISPONIBLE")
    ensures Present(p.estado) ==> WhereOf(p).estado == p.estado
  {
  }

  /** Each optional key is in `where` exactly when its own parameter is given. */
  lemma KeysFollowParameters(p: QueryParams)
    ensures var w := WhereOf(p);
      && (w.tipo.Some? <==> Present(p.tipo))
      && (w.ciudad.Some? <==> Present(p.ciudad))
      && (w.departamento.Some? <==> Present(p.departamento))
      && (w.precio.Some? <==> p.minPrecio.Some? || p.maxPrecio.Some?)
      && (w.precio.Some? ==>
            (w.precio.value.gte.Some? <==> p.minPrecio.Some?) && (w.precio.value.lte.Some? <==> p.maxPrecio.Some?))
      && (w.habitaciones.Some? <==> p.minHabitaciones.Some?)
      && (w.banos.Some? <==> p.minBanos.Some?)
      && (w.area.Some? <==> p.minArea.Some? || p.maxArea.Some?)
      && (w.area.Some? ==>
            (w.area.value.gte.Some? <==> p.minArea.Some?) && (w.area.value.lte.Some? <==> p.maxArea.Some?))
      && (w.estrato.Some? <==> p.estrato.Some?)
      && (w.destacado.Some? <==> Present(p.destacado))
      && (w.tieneGaraje.Some? <==> Present(p.tieneGaraje))
      && (w.amoblado.Some? <==> Present(p.amoblado))
      && (w.accesoAgua.Some? <==> Present(p.accesoAgua))
      && (w.accesoLuz.Some? <==> Present(p.accesoLuz))
      && (w.topografia.Some? <==> Present(p.topografia))
      && (w.viaAcceso.Some? <==> Present(p.viaAcceso))
      && (w.textSearch.Some? <==> Present(p.search))
  {
  }

  /** A query whose filter parameters are all missing or empty. */
  predicate NoFilters(p: QueryParams) {
    && !Present(p.tipo) && !Present(p.ciudad) && !Present(p.departamento)
    && p.minPrecio.None? && p.maxPrecio.None? && p.minHabitaciones.None? && p.minBanos.None?
    && p.minArea.None? && p.maxArea.None? && p.estrato.None? && !Present(p.estado)
    && !Present(p.destacado) && !Present(p.search) && !Present(p.tieneGaraje)
    && !Present(p.amoblado) && !Present(p.accesoAgua) && !Present(p.accesoLuz)
    && !Present(p.topografia) && !Present(p.viaAcceso)
  }

  /** Without filters the endpoint returns exactly the available listings. */
  lemma NoFiltersMeansAvailable(l: Listing, p: QueryParams)
    requires NoFilters(p)
    ensures Matches(l, WhereOf(p)) <==> l.estado == "DISPONIBLE"
  {
  }

  /** Inclusive bounds: a price range with min above max matches nothing, and a price
      equal to a bound is inside the range. */
  lemma PriceRangeInclusive(l: Listing, p: QueryParams)
    requires p.minPrecio.Some? && p.maxPrecio.Some?
    ensures p.minPrecio.value > p.maxPrecio.value ==> !Matches(l, WhereOf(p))
    ensures Matches(l, WhereOf(p)) ==> p.minPrecio.value <= l.precio <= p.maxPrecio.value
  {
  }

  lemma AreaRangeInclusive(l: Listing, p: QueryParams)
    requires p.minArea.Some? && p.maxArea.Some?
    ensures p.minArea.value > p.maxArea.value ==> !Matches(l, WhereOf(p))
    ensures Matches(l, WhereOf(p)) ==>
      l.area.Some? && p.minArea.value <= l.area.value <= p.maxArea.value
  {
  }

  /** `minHabitaciones` and `minBanos` ask for the exact count, not a minimum: a listing
      with more rooms than asked for is left out. */
  lemma RoomFiltersAreExact(l: Listing, p: QueryParams)
    requires p.minHabitaciones.Some? && p.minBanos.Some?
    ensures Matches(l, WhereOf(p)) ==>
      l.habitaciones == p.minHabitaciones && l.banos == p.minBanos
    ensures l.habitaciones.Some? && l.habitaciones.value > p.minHabitaciones.value ==>
      !Matches(l, WhereOf(p))
  {
  }

  /** Boolean parameters: "true" gives true, every other non-empty text gives false. */
  lemma FlagParameters(t: string)
    ensures FlagOf(Some("true")) == Some(true)
    ensures t != "" && t != "true" ==> FlagOf(Some(t)) == Some(false)
    ensures FlagOf(Some("")) == None && FlagOf(None) == None
  {
  }

  /** The free text is conjoined with the other filters: adding `search` keeps exactly
      the listings that matched before and contain the text in one of the five columns. */
  lemma SearchIsConjoined(l: Listing, p: QueryParams, q: string)
    requires q != ""
    ensures Matches(l, WhereOf(p.(search := Some(q)))) <==>
      Matches(l, WhereOf(p.(search := None))) && TextHit(l, q)
  {
  }

  /** The rows the store holds matching `where`, in store order. */
  function Matching(store: seq<Listing>, w: Where): (r: seq<Listing>)
    ensures |r| <= |store|
    ensures forall l :: l in r ==> l in store && Matches(l, w)
    ensures forall l :: l in store && Matches(l, w) ==> l in r
  {
    if store == [] then []
    else (if Matches(store[0], w) then [store[0]] else []) + Matching(store[1..], w)
  }

  /** Matching is the store's `filter` by `where`. */
  lemma {:induction false} MatchingIsFilter(store: seq<Listing>, w: Where, p: Listing -> bool)
    requires forall l :: p(l) == Matches(l, w)
    ensures Matching(store, w) == SeqEdits.Filter(store, p)
  {
    if store != [] {
      MatchingIsFilter(store[1..], w, p);
    }
  }

  /** The matching rows come in store order. */
  lemma MatchingKeepsOrder(store: seq<Listing>, w: Where)
    ensures IsSubsequence(Matching(store, w), store)
  {
    var p := (l: Listing) => Matches(l, w);
    MatchingIsFilter(store, w, p);
    SeqEdits.FilterIsSubsequence(store, p);
  }

  /** What the endpoint answers: the page of rows and its pagination block. */
  datatype Answer = Answer(data: seq<Listing>, page: int, limit: int, total: nat,
                           pages: Option<int>, hasMore: bool)

  /** The 500 reply of the endpoint's `catch`. */
  const ListingsError := Reply(500, "Error al obtener los inmuebles")

  /** The response: the page is cut from the matching rows, and `total` counts the same
      predicate; a window the store refuses ends in the 500 reply. */
  function Respond(store: seq<Listing>, p: QueryParams): (r: Result<Answer, Reply>)
    ensures r.Err? <==> !Pagination.Fetchable(Pagination.WindowOf(p.page, p.limit, DefaultLimit))
    ensures r.Err? ==> r.error == ListingsError
    ensures r.Ok? ==> forall l :: l in r.value.data ==> Satisfies(l, p)
    ensures r.Ok? ==> r.value.total == |Matching(store, WhereOf(p))|
    ensures r.Ok? ==> |r.value.data| <= r.value.limit
    ensures r.Ok? ==> (r.value.hasMore <==> (r.value.page - 1) * r.value.limit + |r.value.data| < r.value.total)
    ensures r.Ok? ==>
      r.value.data == Pagination.PageItems(Matching(store, WhereOf(p)), Pagination.WindowOf(p.page, p.limit, DefaultLimit))
    ensures r.Ok? ==> r.value.pages == Pagination.PageCount(r.value.total, r.value.limit)
  {
    var w := Pagination.WindowOf(p.page, p.limit, DefaultLimit);
    if !Pagination.Fetchable(w) then Err(ListingsError)
    else
      var rows := Matching(store, WhereOf(p));
      var a := PageOf(rows, w);
      assert forall l :: l in a.data ==> Satisfies(l, p) by {
        forall l | l in a.data ensures Satisfies(l, p) {
          WhereMeansSatisfies(l, p);
        }
      }
      Ok(a)
  }

  /** One page of the matching rows with its pagination block. */
  function PageOf(rows: seq<Listing>, w: Pagination.Window): (a: Answer)
    requires Pagination.Fetchable(w) && w.skip + w.limit == w.page * w.limit
    ensures a.page == w.page && a.limit == w.limit && a.total == |rows|
    ensures |a.data| <= a.limit
    ensures forall l :: l in a.data ==> l in rows
    ensures a.hasMore <==> (a.page - 1) * a.limit + |a.data| < a.total
    ensures a.data == Pagination.PageItems(rows, w)
    ensures a.pages == Pagination.PageCount(|rows|, w.limit)
  {
    var items := Pagination.PageItems(rows, w);
    Pagination.HasMoreIffRowsRemain(rows, w);
    assert (w.page - 1) * w.limit == w.skip;
    assert forall l :: l in items ==> l in rows by {
      forall l | l in items ensures l in rows {
        var i :| 0 <= i < |items| && items[i] == l;
        assert items[i] == rows[w.skip + i];
      }
    }
    Answer(items, w.page, w.limit, |rows|, Pagination.PageCount(|rows|, w.limit), Pagination.HasMore(w, |rows|))
  }

  /** `orderBy` defaults to `publicadoEn` and `orderDir` to `desc`. */
  function OrderingOf(p: QueryParams): (r: (string, string))
    ensures !Present(p.orderBy) ==> r.0 == "publicadoEn"
    ensures Present(p.orderBy) ==> r.0 == p.orderBy.value
    ensures !Present(p.orderDir) ==> r.1 == "desc"
    ensures Present(p.orderDir) ==> r.1 == p.orderDir.value
  {
    (if Present(p.orderBy) then p.orderBy.value else "publicadoEn",
     if Present(p.orderDir) then p.orderDir.value else "desc")
  }
}
