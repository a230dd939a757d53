/** The seller's listing endpoint: POST validates the body and builds the record to
    insert, owned by the session's seller, with defaults for what the body leaves out;
    GET pages through the seller's own listings. The store itself is an input. */
module ListingCreate {
  import opened Wrappers
  import opened JsValues
  import opened Strings
  import opened Http
  import Pagination
  import SeqEdits

  /** What POST does before touching the store: either it answers at once, or it
      asks the store to insert `data`. */
  datatype CreateStep = Answer(reply: Reply) | Insert(data: NewListing)

  /** What POST finally answers. */
  datatype CreateResponse = Created(id: int, titulo: Value, tipo: Value) | Failed(reply: Reply)

  const MissingFields := Reply(400, "Faltan campos requeridos")
  const InvalidSeller := Reply(400, "Vendedor no válido")
  const ForeignKeyMessage := "Foreign key constraint failed"

  /** `!data.titulo || !data.tipo || !data.precio || !data.direccion || !data.ciudad
      || !data.departamento`. */
  predicate MissingRequired(b: Object) {
    || !Truthy(Get(b, "titulo")) || !Truthy(Get(b, "tipo")) || !Truthy(Get(b, "precio"))
    || !Truthy(Get(b, "direccion")) || !Truthy(Get(b, "ciudad")) || !Truthy(Get(b, "departamento"))
  }

  /** `v ? parse(v) : null`. */
  function IntOrNull(b: Object, k: string): Value {
    if Truthy(Get(b, k)) then ParseInt(Get(b, k)) else Null
  }

  function FloatOrNull(b: Object, k: string): Value {
    if Truthy(Get(b, k)) then ParseFloat(Get(b, k)) else Null
  }

  /** The record handed to `prisma.inmueble.create`, one field per column written.
      `descripcion` is copied as is, so an absent one stays absent (None). */
  datatype NewListing = NewListing(
    titulo: Value, descripcion: Option<Value>, tipo: Value, precio: Value, moneda: Value,
    area: Value, areaUnidad: Value, habitaciones: Value, banos: Value, pisos: Value,
    antiguedad: Value, estrato: Value, tieneGaraje: Value, amoblado: Value, imagenes: Value,
    direccion: Value, ciudad: Value, departamento: Value, lat: Value, lng: Value,
    estado: Value, destacado: Value, vendedorId: int, topografia: Value, accesoAgua: Value,
    accesoLuz: Value, viaAcceso: Value, cultivos: Value)

  /** The object literal of the insert, field by field. */
  function CreateData(seller: int, b: Object): NewListing {
    NewListing(
      titulo := Or(Get(b, "titulo"), Null),
      descripcion := Get(b, "descripcion"),
      tipo := Or(Get(b, "tipo"), Null),
      precio := ParseInt(Get(b, "precio")),
      moneda := Or(Get(b, "moneda"), Str("COP")),
      area := FloatOrNull(b, "area"),
      areaUnidad := Or(Get(b, "areaUnidad"), Str("METROS_CUADRADOS")),
      habitaciones := IntOrNull(b, "habitaciones"),
      banos := IntOrNull(b, "banos"),
      pisos := IntOrNull(b, "pisos"),
      antiguedad := IntOrNull(b, "antiguedad"),
      estrato := IntOrNull(b, "estrato"),
      tieneGaraje := Or(Get(b, "tieneGaraje"), Bool(false)),
      amoblado := Or(Get(b, "amoblado"), Bool(false)),
      imagenes := Or(Get(b, "imagenes"), Arr([])),
      direccion := Or(Get(b, "direccion"), Null),
      ciudad := Or(Get(b, "ciudad"), Null),
      departamento := Or(Get(b, "departamento"), Null),
      lat := FloatOrNull(b, "lat"),
      lng := FloatOrNull(b, "lng"),
      estado := Or(Get(b, "estado"), Str("DISPONIBLE")),
      destacado := Or(Get(b, "destacado"), Bool(false)),
      vendedorId := seller,
      topografia := Or(Get(b, "topografia"), Null),
      accesoAgua := Or(Get(b, "accesoAgua"), Bool(false)),
      accesoLuz := Or(Get(b, "accesoLuz"), Bool(false)),
      viaAcceso := Or(Get(b, "viaAcceso"), Null),
      cultivos := Or(Get(b, "cultivos"), Null))
  }

  /** POST up to the insert. `seller` is the session's seller id (None: no session);
      `body` is the parsed JSON. None stands for a body that does not parse or parses to
      `null`, on which reading a field throws; any other non-object reads every field as
      undefined and is passed as the empty object. */
  function Create(seller: Option<int>, body: Option<Object>): (r: CreateStep)
    ensures seller.None? ==> r == Answer(Unauthorized)
    ensures seller.Some? && body.None? ==> r == Answer(InternalError)
    ensures seller.Some? && body.Some? ==>
      (r == Answer(MissingFields) <==> MissingRequired(body.value))
    ensures r.Insert? <==> seller.Some? && body.Some? && !MissingRequired(body.value)
  {
    if seller.None? then Answer(Unauthorized)
    else if body.None? then Answer(InternalError)
    else if MissingRequired(body.value) then Answer(MissingFields)
    else Insert(CreateData(seller.value, body.value))
  }

  /** The answer once the store has been asked: the new id, or the store's error
      message. A foreign-key failure is reported as an invalid seller. */
  function AfterInsert(data: NewListing, stored: Result<int, string>): (r: CreateResponse)
    ensures stored.Ok? ==> r.Created? && r.id == stored.value
    ensures stored.Err? && Contains(stored.error, ForeignKeyMessage) ==> r == Failed(InvalidSeller)
    ensures stored.Err? && !Contains(stored.error, ForeignKeyMessage) ==> r == Failed(InternalError)
  {
    match stored
    case Ok(id) => Created(id, data.titulo, data.tipo)
    case Err(m) => if Contains(m, ForeignKeyMessage) then Failed(InvalidSeller) else Failed(InternalError)
  }

  /** Without a session nothing reaches the store; with one, any falsy required field
      (0 and "" included) is a 400. */
  lemma RejectionsInsertNothing(body: Option<Object>, seller: int, b: Object, k: string)
    requires k in ["titulo", "tipo", "precio", "direccion", "ciudad", "departamento"]
    ensures !Create(None, body).Insert?
    ensures !Truthy(Get(b, k)) ==> Create(Some(seller), Some(b)) == Answer(MissingFields)
    ensures Create(Some(seller), Some(b["precio" := Num(0.0)])) == Answer(MissingFields)
    ensures Create(Some(seller), Some(b["precio" := Str("")])) == Answer(MissingFields)
  {
  }

  /** A body that is no object but not `null` either (passed as the empty object) lacks
      every required field, so the answer is the 400. */
  lemma NonObjectBodyMissesFields(seller: int)
    ensures Create(Some(seller), Some(map[])) == Answer(MissingFields)
  {
  }

  /** The owner is the session's seller, whatever the body says: the inserted record
      carries that id, and a `vendedorId` in the body changes nothing. */
  lemma OwnerIsSessionSeller(seller: int, b: Object, forged: Value)
    requires !MissingRequired(b)
    ensures Create(Some(seller), Some(b)).data.vendedorId == seller
    ensures Create(Some(seller), Some(b["vendedorId" := forged])) == Create(Some(seller), Some(b))
  {
    var b' := b["vendedorId" := forged];
    assert forall k :: k != "vendedorId" ==> Get(b', k) == Get(b, k);
  }

  /** Defaults for what the body leaves out or sends falsy. */
  lemma DefaultsForMissingFields(seller: int, b: Object)
    requires !MissingRequired(b)
    ensures var d := Create(Some(seller), Some(b)).data;
      && (!Truthy(Get(b, "moneda")) ==> d.moneda == Str("COP"))
      && (!Truthy(Get(b, "areaUnidad")) ==> d.areaUnidad == Str("METROS_CUADRADOS"))
      && (!Truthy(Get(b, "estado")) ==> d.estado == Str("DISPONIBLE"))
      && (!Truthy(Get(b, "imagenes")) ==> d.imagenes == Arr([]))
      && (!Truthy(Get(b, "tieneGaraje")) ==> d.tieneGaraje == Bool(false))
      && (!Truthy(Get(b, "amoblado")) ==> d.amoblado == Bool(false))
      && (!Truthy(Get(b, "destacado")) ==> d.destacado == Bool(false))
      && (!Truthy(Get(b, "accesoAgua")) ==> d.accesoAgua == Bool(false))
      && (!Truthy(Get(b, "accesoLuz")) ==> d.accesoLuz == Bool(false))
      && (!Truthy(Get(b, "topografia")) ==> d.topografia == Null)
      && (!Truthy(Get(b, "viaAcceso")) ==> d.viaAcceso == Null)
      && (!Truthy(Get(b, "cultivos")) ==> d.cultivos == Null)
  {
  }

  /** Optional numbers that are absent or falsy are stored as null; present ones are
      parsed. A given text field keeps its value and `descripcion` is copied as is. */
  lemma OptionalNumbersNullWhenFalsy(seller: int, b: Object)
    requires !MissingRequired(b)
    ensures var d := Create(Some(seller), Some(b)).data;
      && (!Truthy(Get(b, "habitaciones")) ==> d.habitaciones == Null)
      && (Truthy(Get(b, "habitaciones")) ==> d.habitaciones == ParseInt(Get(b, "habitaciones")))
      && (!Truthy(Get(b, "banos")) ==> d.banos == Null)
      && (Truthy(Get(b, "banos")) ==> d.banos == ParseInt(Get(b, "banos")))
      && (!Truthy(Get(b, "pisos")) ==> d.pisos == Null)
      && (Truthy(Get(b, "pisos")) ==> d.pisos == ParseInt(Get(b, "pisos")))
      && (!Truthy(Get(b, "antiguedad")) ==> d.antiguedad == Null)
      && (Truthy(Get(b, "antiguedad")) ==> d.antiguedad == ParseInt(Get(b, "antiguedad")))
      && (!Truthy(Get(b, "estrato")) ==> d.estrato == Null)
      && (Truthy(Get(b, "estrato")) ==> d.estrato == ParseInt(Get(b, "estrato")))
      && (!Truthy(Get(b, "area")) ==> d.area == Null)
      && (Truthy(Get(b, "area")) ==> d.area == ParseFloat(Get(b, "area")))
      && (!Truthy(Get(b, "lat")) ==> d.lat == Null)
      && (Truthy(Get(b, "lat")) ==> d.lat == ParseFloat(Get(b, "lat")))
      && (!Truthy(Get(b, "lng")) ==> d.lng == Null)
      && (Truthy(Get(b, "lng")) ==> d.lng == ParseFloat(Get(b, "lng")))
      && d.precio == ParseInt(Get(b, "precio"))
      && Some(d.titulo) == Get(b, "titulo") && Some(d.ciudad) == Get(b, "ciudad")
      && d.descripcion == Get(b, "descripcion")
  {
  }

  // ---- GET: the seller's own listings ----

  const OwnDefaultLimit := 10

  /** A stored listing as this query sees it: its owner and the selected row. */
  datatype Owned<T> = Owned(vendedorId: int, row: T)

  /** The store query GET issues (`where: { vendedorId }`, `skip`, `take`). */
  datatype OwnQuery = OwnQuery(vendedorId: int, window: Pagination.Window)

  function OwnQueryOf(seller: Option<int>, page: Option<int>, limit: Option<int>): (r: Result<OwnQuery, Reply>)
    ensures seller.None? ==> r == Err(Unauthorized)
    ensures seller.Some? ==> r.Ok? && r.value.vendedorId == seller.value
    ensures r.Ok? ==> r.value.window == Pagination.WindowOf(page, limit, OwnDefaultLimit)
  {
    if seller.None? then Err(Unauthorized)
    else Ok(OwnQuery(seller.value, Pagination.WindowOf(page, limit, OwnDefaultLimit)))
  }

  /** The seller's rows, in store order. */
  function OwnRows<T>(store: seq<Owned<T>>, seller: int): (r: seq<Owned<T>>)
    ensures |r| <= |store|
    ensures forall o :: o in r ==> o in store && o.vendedorId == seller
    ensures forall o :: o in store && o.vendedorId == seller ==> o in r
  {
    if store == [] then []
    else (if store[0].vendedorId == seller then [store[0]] else []) + OwnRows(store[1..], seller)
  }

  /** OwnRows is the store's `filter` by owner, so it keeps the store order. */
  lemma {:induction false} OwnRowsIsFilter<T>(store: seq<Owned<T>>, seller: int, p: Owned<T> -> bool)
    requires forall o :: p(o) == (o.vendedorId == seller)
    ensures OwnRows(store, seller) == SeqEdits.Filter(store, p)
  {
    if store != [] {
      OwnRowsIsFilter(store[1..], seller, p);
    }
  }

  /** The seller's rows come in store order. */
  lemma OwnRowsKeepOrder<T>(store: seq<Owned<T>>, seller: int)
    ensures IsSubsequence(OwnRows(store, seller), store)
  {
    var p := (o: Owned<T>) => o.vendedorId == seller;
    OwnRowsIsFilter(store, seller, p);
    SeqEdits.FilterIsSubsequence(store, p);
  }

  datatype OwnPage<T> = OwnPage(rows: seq<Owned<T>>, page: int, limit: int, total: nat, pages: Option<int>)

  /** The GET answer: only the caller's rows, one page of them, and the page count
      `ceil(total / limit)` over all of them; a window the store refuses ends in the
      500 reply of the `catch`. */
  function OwnListing<T>(store: seq<Owned<T>>, q: OwnQuery): (r: Result<OwnPage<T>, Reply>)
    ensures r.Err? <==> !Pagination.Fetchable(q.window)
    ensures r.Err? ==> r.error == InternalError
    ensures r.Ok? ==> forall o :: o in r.value.rows ==> o in store && o.vendedorId == q.vendedorId
    ensures r.Ok? ==> r.value.total == |OwnRows(store, q.vendedorId)|
    ensures r.Ok? ==> |r.value.rows| <= q.window.limit
    ensures r.Ok? ==> r.value.pages == Pagination.PageCount(r.value.total, q.window.limit)
    ensures r.Ok? ==> r.value.rows == Pagination.PageItems(OwnRows(store, q.vendedorId), q.window)
  {
    if !Pagination.Fetchable(q.window) then Err(InternalError)
    else
      var own := OwnRows(store, q.vendedorId);
      var items := Pagination.PageItems(own, q.window);
      assert forall o :: o in items ==> o in own by {
        forall o | o in items ensures o in own {
          var i :| 0 <= i < |items| && items[i] == o;
          assert items[i] == own[q.window.skip + i];
        }
      }
      Ok(OwnPage(items, q.window.page, q.window.limit, |own|, Pagination.PageCount(|own|, q.window.limit)))
  }

  /** `pages` covers exactly the caller's rows: the last page is the first that
      reaches their count. */
  lemma OwnPagesCoverOwnRows<T>(store: seq<Owned<T>>, q: OwnQuery)
    requires q.window.skip >= 0 && q.window.limit > 0
    ensures var r := OwnListing(store, q);
      r.Ok? && r.value.pages.Some? &&
      (r.value.pages.value - 1) * q.window.limit < r.value.total <= r.value.pages.value * q.window.limit
  {
    Pagination.PageCountIsCeiling(|OwnRows(store, q.vendedorId)|, q.window.limit);
  }

  /** Defaults: page 1 and ten per page, so the first ten own rows come back. */
  lemma OwnListingDefaults<T>(store: seq<Owned<T>>, seller: int)
    requires |OwnRows(store, seller)| >= 10
    ensures OwnQueryOf(Some(seller), None, None) == Ok(OwnQuery(seller, Pagination.Window(1, 10, 0)))
    ensures OwnListing(store, OwnQuery(seller, Pagination.Window(1, 10, 0))).Ok?
    ensures OwnListing(store, OwnQuery(seller, Pagination.Window(1, 10, 0))).value.rows == OwnRows(store, seller)[..10]
  {
  }
}
