/** The listing form schema: one rule per field, each turning the submitted value into
    the typed value the form works with (applying the preprocessing and the defaults),
    or rejecting it. The object is accepted exactly when every field is. */
module ListingSchema {
  import opened Wrappers
  import opened JsValues

  const Tipos := ["APARTAMENTO", "CASA", "LOTE_URBANO", "PREDIO_RURAL", "FINCA", "OFICINA",
                  "LOCAL_COMERCIAL", "BODEGA", "OTRO"]
  const Monedas := ["COP", "USD"]
  const AreaUnidades := ["METROS_CUADRADOS", "HECTAREAS"]
  const Estados := ["DISPONIBLE", "VENDIDO", "RESERVADO"]
  const Topografias := ["PLANA", "ONDULADA", "QUEBRADA", "MONTANOSA"]
  const ViasAcceso := ["PAVIMENTADA", "DESTAPADA", "TROCHA", "FLUVIAL"]

  /** A field that may be left out (undefined), be null, or hold a value. */
  datatype Nullable<T> = Undefined | NullValue | Given(value: T)

  // ---- field rules ----

  /** `z.string().min(min).max(max)`. */
  function TextField(v: Option<Value>, min: nat, max: Option<nat>): (r: Option<string>)
    ensures r.Some? ==> v == Some(Str(r.value)) && min <= |r.value|
    ensures r.Some? && max.Some? ==> |r.value| <= max.value
    ensures (v.Some? && v.value.Str? && min <= |v.value.s| && (max.None? || |v.value.s| <= max.value))
            ==> r.Some?
  {
    if v.Some? && v.value.Str? && min <= |v.value.s| && (max.None? || |v.value.s| <= max.value)
    then Some(v.value.s) else None
  }

  /** `z.enum(options)`, with `.default(fallback)` used only for an undefined value. */
  function ChoiceField(v: Option<Value>, options: seq<string>, fallback: Option<string>): (r: Option<string>)
    ensures r.Some? ==> r.value in options || (v.None? && r == fallback)
    ensures v.None? ==> r == fallback
    ensures v.Some? ==> (r.Some? <==> v.value.Str? && v.value.s in options)
    ensures v.Some? && r.Some? ==> v == Some(Str(r.value))
  {
    match v
    case None => fallback
    case Some(Str(s)) => if s in options then Some(s) else None
    case Some(_) => None
  }

  /** `z.enum(options).nullable().optional()`. */
  function NullableChoiceField(v: Option<Value>, options: seq<string>): (r: Option<Nullable<string>>)
    ensures v.None? ==> r == Some(Undefined)
    ensures v == Some(Null) ==> r == Some(NullValue)
    ensures r.Some? && r.value.Given? ==> r.value.value in options && v == Some(Str(r.value.value))
    ensures r.None? <==> v.Some? && v.value != Null && !(v.value.Str? && v.value.s in options)
  {
    match v
    case None => Some(Undefined)
    case Some(Null) => Some(NullValue)
    case Some(Str(s)) => if s in options then Some(Given(s)) else None
    case Some(_) => None
  }

  /** `z.string().nullable().optional()`. */
  function NullableTextField(v: Option<Value>): (r: Option<Nullable<string>>)
    ensures r.None? <==> v.Some? && v.value != Null && !v.value.Str?
    ensures r.Some? && r.value.Given? ==> v == Some(Str(r.value.value))
  {
    match v
    case None => Some(Undefined)
    case Some(Null) => Some(NullValue)
    case Some(Str(s)) => Some(Given(s))
    case Some(_) => None
  }

  /** `z.boolean().default(false)`. */
  function FlagField(v: Option<Value>): (r: Option<bool>)
    ensures v.None? ==> r == Some(false)
    ensures v.Some? ==> (r.Some? <==> v.value.Bool?)
    ensures v.Some? && r.Some? ==> v == Some(Bool(r.value))
  {
    match v
    case None => Some(false)
    case Some(Bool(b)) => Some(b)
    case Some(_) => None
  }

  /** The preprocessing of the numeric fields: "" and null stand for "no value";
      anything else goes through `Number`, so an undefined value becomes NaN. */
  predicate Blank(v: Option<Value>) {
    v == Some(Str("")) || v == Some(Null)
  }

  /** `precio`: a blank value is turned into undefined, which the required number
      rejects; otherwise `Number(v)` must be an integer of at least 1. */
  function PriceField(v: Option<Value>): (r: Option<int>)
    ensures Blank(v) ==> r.None?
    ensures r.Some? ==> ToNumber(v) == Num(r.value as real) && r.value >= 1
    ensures !Blank(v) && ToNumber(v).Num? && IsInteger(ToNumber(v).x) && ToNumber(v).x >= 1.0
            ==> r.Some?
  {
    if Blank(v) then None
    else
      var n := ToNumber(v);
      if n.Num? && IsInteger(n.x) && n.x >= 1.0 then Some(n.x.Floor) else None
  }

  /** A nullable optional integer with bounds: blank is null; otherwise `Number(v)`
      must be an integer within [min, max]. None is the rejection. */
  function CountField(v: Option<Value>, min: int, max: Option<int>): (r: Option<Option<int>>)
    ensures Blank(v) <==> r == Some(None)
    ensures v.None? ==> r.None?
    ensures r.Some? && r.value.Some? ==>
      var n := r.value.value;
      ToNumber(v) == Num(n as real) && min <= n && (max.None? || n <= max.value)
    ensures (!Blank(v) && ToNumber(v).Num? && IsInteger(ToNumber(v).x) && min as real <= ToNumber(v).x
            && (max.None? || ToNumber(v).x <= max.value as real)) ==> r.Some?
  {
    if Blank(v) then Some(None)
    else
      var n := ToNumber(v);
      if n.Num? && IsInteger(n.x) && min as real <= n.x && (max.None? || n.x <= max.value as real)
      then Some(Some(n.x.Floor)) else None
  }

  /** A nullable optional real with an optional lower bound: blank is null; otherwise
      `Number(v)` must be a number (not NaN) of at least min. */
  function MeasureField(v: Option<Value>, min: Option<real>): (r: Option<Option<real>>)
    ensures Blank(v) <==> r == Some(None)
    ensures v.None? ==> r.None?
    ensures r.Some? && r.value.Some? ==>
      ToNumber(v) == Num(r.value.value) && (min.None? || min.value <= r.value.value)
    ensures (!Blank(v) && ToNumber(v).Num? && (min.None? || min.value <= ToNumber(v).x)) ==> r.Some?
  {
    if Blank(v) then Some(None)
    else
      var n := ToNumber(v);
      if n.Num? && (min.None? || min.value <= n.x) then Some(Some(n.x)) else None
  }

  // ---- the schema ----

  datatype Field =
    | Titulo | Descripcion | Direccion | Ciudad | Departamento | Tipo | Moneda | AreaUnidad
    | Estado | Precio | Area | Habitaciones | Banos | Pisos | Antiguedad | Estrato | Lat | Lng
    | TieneGaraje | Amoblado | Destacado | Topografia | AccesoAgua | AccesoLuz | ViaAcceso
    | Cultivos

  const AllFields: set<Field> := {
    Titulo, Descripcion, Direccion, Ciudad, Departamento, Tipo, Moneda, AreaUnidad, Estado,
    Precio, Area, Habitaciones, Banos, Pisos, Antiguedad, Estrato, Lat, Lng, TieneGaraje,
    Amoblado, Destacado, Topografia, AccesoAgua, AccesoLuz, ViaAcceso, Cultivos}

  lemma AllFieldsComplete(f: Field)
    ensures f in AllFields
  {
  }

  /** The parsed form: what the schema yields for an accepted object. Keys of the
      input that the schema does not name do not appear in it. */
  datatype FormData = FormData(
    titulo: string,
    descripcion: string,
    direccion: string,
    ciudad: string,
    departamento: string,
    tipo: string,
    moneda: string,
    areaUnidad: string,
    estado: string,
    precio: int,
    area: Option<real>,
    habitaciones: Option<int>,
    banos: Option<int>,
    pisos: Option<int>,
    antiguedad: Option<int>,
    estrato: Option<int>,
    lat: Option<real>,
    lng: Option<real>,
    tieneGaraje: bool,
    amoblado: bool,
    destacado: bool,
    topografia: Nullable<string>,
    accesoAgua: bool,
    accesoLuz: bool,
    viaAcceso: Nullable<string>,
    cultivos: Nullable<string>)

  /** Each field's rule applied to the value under its key; None is a rejection. */
  datatype Checks = Checks(
    titulo: Option<string>,
    descripcion: Option<string>,
    direccion: Option<string>,
    ciudad: Option<string>,
    departamento: Option<string>,
    tipo: Option<string>,
    moneda: Option<string>,
    areaUnidad: Option<string>,
    estado: Option<string>,
    precio: Option<int>,
    area: Option<Option<real>>,
    habitaciones: Option<Option<int>>,
    banos: Option<Option<int>>,
    pisos: Option<Option<int>>,
    antiguedad: Option<Option<int>>,
    estrato: Option<Option<int>>,
    lat: Option<Option<real>>,
    lng: Option<Option<real>>,
    tieneGaraje: Option<bool>,
    amoblado: Option<bool>,
    destacado: Option<bool>,
    topografia: Option<Nullable<string>>,
    accesoAgua: Option<bool>,
    accesoLuz: Option<bool>,
    viaAcceso: Option<Nullable<string>>,
    cultivos: Option<Nullable<string>>)

  function CheckFields(o: Object): Checks {
    Checks(
      TextField(Get(o, "titulo"), 5, Some(200)),
      TextField(Get(o, "descripcion"), 10, Some(2000)),
      TextField(Get(o, "direccion"), 5, None),
      TextField(Get(o, "ciudad"), 2, None),
      TextField(Get(o, "departamento"), 2, None),
      ChoiceField(Get(o, "tipo"), Tipos, None),
      ChoiceField(Get(o, "moneda"), Monedas, Some("COP")),
      ChoiceField(Get(o, "areaUnidad"), AreaUnidades, Some("METROS_CUADRADOS")),
      ChoiceField(Get(o, "estado"), Estados, Some("DISPONIBLE")),
      PriceField(Get(o, "precio")),
      MeasureField(Get(o, "area"), Some(0.0)),
      CountField(Get(o, "habitaciones"), 0, None),
      CountField(Get(o, "banos"), 0, None),
      CountField(Get(o, "pisos"), 0, None),
      CountField(Get(o, "antiguedad"), 0, None),
      CountField(Get(o, "estrato"), 1, Some(6)),
      MeasureField(Get(o, "lat"), None),
      MeasureField(Get(o, "lng"), None),
      FlagField(Get(o, "tieneGaraje")),
      FlagField(Get(o, "amoblado")),
      FlagField(Get(o, "destacado")),
      NullableChoiceField(Get(o, "topografia"), Topografias),
      FlagField(Get(o, "accesoAgua")),
      FlagField(Get(o, "accesoLuz")),
      NullableChoiceField(Get(o, "viaAcceso"), ViasAcceso),
      NullableTextField(Get(o, "cultivos")))
  }

  /** Whether field f's rule accepted its value. */
  predicate Passed(c: Checks, f: Field) {
    match f
    case Titulo => c.titulo.Some?
    case Descripcion => c.descripcion.Some?
    case Direccion => c.direccion.Some?
    case Ciudad => c.ciudad.Some?
    case Departamento => c.departamento.Some?
    case Tipo => c.tipo.Some?
    case Moneda => c.moneda.Some?
    case AreaUnidad => c.areaUnidad.Some?
    case Estado => c.estado.Some?
    case Precio => c.precio.Some?
    case Area => c.area.Some?
    case Habitaciones => c.habitaciones.Some?
    case Banos => c.banos.Some?
    case Pisos => c.pisos.Some?
    case Antiguedad => c.antiguedad.Some?
    case Estrato => c.estrato.Some?
    case Lat => c.lat.Some?
    case Lng => c.lng.Some?
    case TieneGaraje => c.tieneGaraje.Some?
    case Amoblado => c.amoblado.Some?
    case Destacado => c.destacado.Some?
    case Topografia => c.topografia.Some?
    case AccesoAgua => c.accesoAgua.Some?
    case AccesoLuz => c.accesoLuz.Some?
    case ViaAcceso => c.viaAcceso.Some?
    case Cultivos => c.cultivos.Some?
  }

  /** Whether the value under field f's key passes f's rule. */
  predicate Accepts(o: Object, f: Field) {
    Passed(CheckFields(o), f)
  }

  /** All fields passed. */
  predicate AllPassed(c: Checks) {
       c.titulo.Some?
    && c.descripcion.Some?
    && c.direccion.Some?
    && c.ciudad.Some?
    && c.departamento.Some?
    && c.tipo.Some?
    && c.moneda.Some?
    && c.areaUnidad.Some?
    && c.estado.Some?
    && c.precio.Some?
    && c.area.Some?
    && c.habitaciones.Some?
    && c.banos.Some?
    && c.pisos.Some?
    && c.antiguedad.Some?
    && c.estrato.Some?
    && c.lat.Some?
    && c.lng.Some?
    && c.tieneGaraje.Some?
    && c.amoblado.Some?
    && c.destacado.Some?
    && c.topografia.Some?
    && c.accesoAgua.Some?
    && c.accesoLuz.Some?
    && c.viaAcceso.Some?
    && c.cultivos.Some?
  }

  lemma AllPassedMeansEveryField(c: Checks)
    ensures AllPassed(c) <==> forall f :: Passed(c, f)
  {
    if AllPassed(c) {
      forall f ensures Passed(c, f) {
        match f
        case _ =>
      }
    } else {
      SomeFieldFailed(c);
    }
  }

  /** A field that did not pass names itself. */
  lemma SomeFieldFailed(c: Checks)
    requires !AllPassed(c)
    ensures exists f :: !Passed(c, f)
  {
    if c.titulo.None? { assert !Passed(c, Titulo); }
    else if c.descripcion.None? { assert !Passed(c, Descripcion); }
    else if c.direccion.None? { assert !Passed(c, Direccion); }
    else if c.ciudad.None? { assert !Passed(c, Ciudad); }
    else if c.departamento.None? { assert !Passed(c, Departamento); }
    else if c.tipo.None? { assert !Passed(c, Tipo); }
    else if c.moneda.None? { assert !Passed(c, Moneda); }
    else if c.areaUnidad.None? { assert !Passed(c, AreaUnidad); }
    else if c.estado.None? { assert !Passed(c, Estado); }
    else if c.precio.None? { assert !Passed(c, Precio); }
    else if c.area.None? { assert !Passed(c, Area); }
    else if c.habitaciones.None? { assert !Passed(c, Habitaciones); }
    else if c.banos.None? { assert !Passed(c, Banos); }
    else if c.pisos.None? { assert !Passed(c, Pisos); }
    else if c.antiguedad.None? { assert !Passed(c, Antiguedad); }
    else if c.estrato.None? { assert !Passed(c, Estrato); }
    else if c.lat.None? { assert !Passed(c, Lat); }
    else if c.lng.None? { assert !Passed(c, Lng); }
    else if c.tieneGaraje.None? { assert !Passed(c, TieneGaraje); }
    else if c.amoblado.None? { assert !Passed(c, Amoblado); }
    else if c.destacado.None? { assert !Passed(c, Destacado); }
    else if c.topografia.None? { assert !Passed(c, Topografia); }
    else if c.accesoAgua.None? { assert !Passed(c, AccesoAgua); }
    else if c.accesoLuz.None? { assert !Passed(c, AccesoLuz); }
    else if c.viaAcceso.None? { assert !Passed(c, ViaAcceso); }
    else if c.cultivos.None? { assert !Passed(c, Cultivos); }
  }

  /** The fields whose rule fails. */
  function Failures(o: Object): (r: set<Field>)
    ensures forall f :: f in r <==> !Accepts(o, f)
  {
    forall f ensures f in AllFields { AllFieldsComplete(f); }
    set f | f in AllFields && !Accepts(o, f)
  }

  /** `inmuebleSchema.safeParse(o)`: the parsed form, or the set of failing fields. */
  function Validate(o: Object): (r: Result<FormData, set<Field>>)
    ensures r.Ok? <==> forall f :: Accepts(o, f)
    ensures r.Err? ==> r.error == Failures(o) && r.error != {}
  {
    var c := CheckFields(o);
    AllPassedMeansEveryField(c);
    if AllPassed(c) then
      Ok(FormData(
        c.titulo.value,
        c.descripcion.value,
        c.direccion.value,
        c.ciudad.value,
        c.departamento.value,
        c.tipo.value,
        c.moneda.value,
        c.areaUnidad.value,
        c.estado.value,
        c.precio.value,
        c.area.value,
        c.habitaciones.value,
        c.banos.value,
        c.pisos.value,
        c.antiguedad.value,
        c.estrato.value,
        c.lat.value,
        c.lng.value,
        c.tieneGaraje.value,
        c.amoblado.value,
        c.destacado.value,
        c.topografia.value,
        c.accesoAgua.value,
        c.accesoLuz.value,
        c.viaAcceso.value,
        c.cultivos.value))
    else
      var f :| !Accepts(o, f);
      assert f in Failures(o);
      Err(Failures(o))
  }

  /** Everything an accepted form holds meets the schema's constraints. */
  lemma AcceptedFormMeetsRules(o: Object)
    requires Validate(o).Ok?
    ensures var d := Validate(o).value;
      && 5 <= |d.titulo| <= 200 && 10 <= |d.descripcion| <= 2000
      && |d.direccion| >= 5 && |d.ciudad| >= 2 && |d.departamento| >= 2
      && d.tipo in Tipos && d.moneda in Monedas && d.areaUnidad in AreaUnidades
      && d.estado in Estados
      && d.precio >= 1
      && (d.area.Some? ==> d.area.value >= 0.0)
      && (d.habitaciones.Some? ==> d.habitaciones.value >= 0)
      && (d.banos.Some? ==> d.banos.value >= 0)
      && (d.pisos.Some? ==> d.pisos.value >= 0)
      && (d.antiguedad.Some? ==> d.antiguedad.value >= 0)
      && (d.estrato.Some? ==> 1 <= d.estrato.value <= 6)
      && (d.topografia.Given? ==> d.topografia.value in Topografias)
      && (d.viaAcceso.Given? ==> d.viaAcceso.value in ViasAcceso)
  {
  }

  /** Texts come through unchanged, and what the form leaves out takes the defaults:
      COP, square metres, available, and false for every flag. */
  lemma AcceptedFormDefaults(o: Object)
    requires Validate(o).Ok?
    ensures var d := Validate(o).value;
      && Get(o, "titulo") == Some(Str(d.titulo)) && Get(o, "ciudad") == Some(Str(d.ciudad))
      && (Get(o, "moneda").None? ==> d.moneda == "COP")
      && (Get(o, "areaUnidad").None? ==> d.areaUnidad == "METROS_CUADRADOS")
      && (Get(o, "estado").None? ==> d.estado == "DISPONIBLE")
      && (Get(o, "tieneGaraje").None? ==> !d.tieneGaraje)
      && (Get(o, "amoblado").None? ==> !d.amoblado)
      && (Get(o, "destacado").None? ==> !d.destacado)
      && (Get(o, "accesoAgua").None? ==> !d.accesoAgua)
      && (Get(o, "accesoLuz").None? ==> !d.accesoLuz)
      && (Get(o, "topografia").None? ==> d.topografia == Undefined)
      && (Get(o, "cultivos").None? ==> d.cultivos == Undefined)
  {
  }

  /** Blank optional numbers are stored as null; a number that is present is kept. */
  lemma BlankNumbersAreNull(o: Object)
    requires Validate(o).Ok?
    ensures var d := Validate(o).value;
      && (Blank(Get(o, "habitaciones")) ==> d.habitaciones == None)
      && (Blank(Get(o, "banos")) ==> d.banos == None)
      && (Blank(Get(o, "pisos")) ==> d.pisos == None)
      && (Blank(Get(o, "antiguedad")) ==> d.antiguedad == None)
      && (Blank(Get(o, "estrato")) ==> d.estrato == None)
      && (Blank(Get(o, "area")) ==> d.area == None)
      && (d.habitaciones.Some? ==> ToNumber(Get(o, "habitaciones")) == Num(d.habitaciones.value as real))
      && ToNumber(Get(o, "precio")) == Num(d.precio as real)
  {
  }

  /** A blank or missing price rejects the form; so does a missing category. */
  lemma PriceAndTipoRequired(o: Object)
    ensures Blank(Get(o, "precio")) || Get(o, "precio").None? ==>
      Validate(o).Err? && Precio in Validate(o).error
    ensures Get(o, "tipo").None? ==> Validate(o).Err? && Tipo in Validate(o).error
  {
    if Blank(Get(o, "precio")) || Get(o, "precio").None? { assert !Accepts(o, Precio); }
    if Get(o, "tipo").None? { assert !Accepts(o, Tipo); }
  }

  /** A stratum outside 1..6 rejects the form. */
  lemma EstratoOutOfRangeRejected(o: Object, n: int)
    requires Get(o, "estrato") == Some(Num(n as real)) && (n < 1 || n > 6)
    ensures Validate(o).Err? && Estrato in Validate(o).error
  {
    assert !Accepts(o, Estrato);
  }

  /** A price below 1 rejects the form. */
  lemma PriceBelowOneRejected(o: Object, n: int)
    requires Get(o, "precio") == Some(Num(n as real)) && n < 1
    ensures Validate(o).Err? && Precio in Validate(o).error
  {
    assert !Accepts(o, Precio);
  }

  /** A title shorter than 5 characters rejects the form, and so does a number field
      left out altogether: `Number(undefined)` is NaN, which the number rule refuses. */
  lemma ShortTitleOrMissingNumberRejected(o: Object)
    ensures (Get(o, "titulo").Some? && Get(o, "titulo").value.Str? && |Get(o, "titulo").value.s| < 5) ==>
      Validate(o).Err? && Titulo in Validate(o).error
    ensures Get(o, "habitaciones").None? ==> Validate(o).Err? && Habitaciones in Validate(o).error
  {
    if Get(o, "titulo").Some? && Get(o, "titulo").value.Str? && |Get(o, "titulo").value.s| < 5 {
      assert !Accepts(o, Titulo);
    }
    if Get(o, "habitaciones").None? { assert !Accepts(o, Habitaciones); }
  }
}
