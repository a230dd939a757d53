/** The form's data conventions: filling the form from a stored listing, and
    cleaning the parsed form before it is sent. */
module FormUtils {
  import opened Wrappers
  import opened JsValues

  // ---- parseInitialData ----

  /** The form's starting values, one per field. Fields the conversion copies with a
      bare cast (topografia, viaAcceso) stay undefined (None) when the listing has none. */
  datatype InitialForm = InitialForm(
    titulo: Value, descripcion: Value, tipo: Value, precio: Value, moneda: Value,
    area: Value, areaUnidad: Value, habitaciones: Value, banos: Value, pisos: Value,
    antiguedad: Value, estrato: Value, tieneGaraje: Value, amoblado: Value,
    direccion: Value, ciudad: Value, departamento: Value, lat: Value, lng: Value,
    estado: Value, destacado: Value, topografia: Option<Value>, accesoAgua: Value,
    accesoLuz: Value, viaAcceso: Option<Value>, cultivos: Value)

  /** `parseInitialData`: `||` for texts, enums, the price and flags; `??` for the
      nullable numbers and cultivos. */
  function ParseInitialData(d: Object): InitialForm {
    InitialForm(
      titulo := Or(Get(d, "titulo"), Str("")),
      descripcion := Or(Get(d, "descripcion"), Str("")),
      tipo := Or(Get(d, "tipo"), Str("APARTAMENTO")),
      precio := Or(Get(d, "precio"), Num(0.0)),
      moneda := Or(Get(d, "moneda"), Str("COP")),
      area := Coalesce(Get(d, "area"), Null),
      areaUnidad := Or(Get(d, "areaUnidad"), Str("METROS_CUADRADOS")),
      habitaciones := Coalesce(Get(d, "habitaciones"), Null),
      banos := Coalesce(Get(d, "banos"), Null),
      pisos := Coalesce(Get(d, "pisos"), Null),
      antiguedad := Coalesce(Get(d, "antiguedad"), Null),
      estrato := Coalesce(Get(d, "estrato"), Null),
      tieneGaraje := Or(Get(d, "tieneGaraje"), Bool(false)),
      amoblado := Or(Get(d, "amoblado"), Bool(false)),
      direccion := Or(Get(d, "direccion"), Str("")),
      ciudad := Or(Get(d, "ciudad"), Str("")),
      departamento := Or(Get(d, "departamento"), Str("")),
      lat := Coalesce(Get(d, "lat"), Null),
      lng := Coalesce(Get(d, "lng"), Null),
      estado := Or(Get(d, "estado"), Str("DISPONIBLE")),
      destacado := Or(Get(d, "destacado"), Bool(false)),
      topografia := Get(d, "topografia"),
      accesoAgua := Or(Get(d, "accesoAgua"), Bool(false)),
      accesoLuz := Or(Get(d, "accesoLuz"), Bool(false)),
      viaAcceso := Get(d, "viaAcceso"),
      cultivos := Coalesce(Get(d, "cultivos"), Null))
  }

  /** Missing or empty texts become "", missing enums take their defaults, missing flags
      are false. */
  lemma InitialDefaults(d: Object)
    ensures var f := ParseInitialData(d);
      && (!Truthy(Get(d, "titulo")) ==> f.titulo == Str(""))
      && (!Truthy(Get(d, "descripcion")) ==> f.descripcion == Str(""))
      && (!Truthy(Get(d, "direccion")) ==> f.direccion == Str(""))
      && (!Truthy(Get(d, "ciudad")) ==> f.ciudad == Str(""))
      && (!Truthy(Get(d, "departamento")) ==> f.departamento == Str(""))
      && (!Truthy(Get(d, "tipo")) ==> f.tipo == Str("APARTAMENTO"))
      && (!Truthy(Get(d, "moneda")) ==> f.moneda == Str("COP"))
      && (!Truthy(Get(d, "areaUnidad")) ==> f.areaUnidad == Str("METROS_CUADRADOS"))
      && (!Truthy(Get(d, "estado")) ==> f.estado == Str("DISPONIBLE"))
      && (!Truthy(Get(d, "tieneGaraje")) ==> f.tieneGaraje == Bool(false))
      && (!Truthy(Get(d, "amoblado")) ==> f.amoblado == Bool(false))
      && (!Truthy(Get(d, "destacado")) ==> f.destacado == Bool(false))
      && (!Truthy(Get(d, "accesoAgua")) ==> f.accesoAgua == Bool(false))
      && (!Truthy(Get(d, "accesoLuz")) ==> f.accesoLuz == Bool(false))
      && (Truthy(Get(d, "titulo")) ==> Some(f.titulo) == Get(d, "titulo"))
  {
  }

  /** `??` keeps a stored 0 and turns only null or undefined into null; `||` turns a
      missing price into 0. */
  lemma InitialNumbers(d: Object)
    ensures var f := ParseInitialData(d);
      && (Get(d, "habitaciones") == Some(Num(0.0)) ==> f.habitaciones == Num(0.0))
      && (Get(d, "area") == Some(Num(0.0)) ==> f.area == Num(0.0))
      && (Get(d, "estrato").None? ==> f.estrato == Null)
      && (Get(d, "habitaciones").Some? && Get(d, "habitaciones") != Some(Null)
          ==> Some(f.habitaciones) == Get(d, "habitaciones"))
      && (Get(d, "lat").None? || Get(d, "lat") == Some(Null) ==> f.lat == Null)
      && (Get(d, "precio").None? ==> f.precio == Num(0.0))
      && (Get(d, "precio") == Some(Num(0.0)) ==> f.precio == Num(0.0))
      && f.topografia == Get(d, "topografia")
  {
  }

  // ---- sanitizeFormData ----

  /** The optional fields whose null, "" or undefined is written as null. */
  const OptionalFields := ["area", "habitaciones", "banos", "pisos", "antiguedad", "estrato",
                           "lat", "lng", "topografia", "viaAcceso", "cultivos"]

  /** The integer fields rounded after that. */
  const IntFields := ["habitaciones", "banos", "pisos", "antiguedad", "estrato"]

  predicate Nullish(v: Option<Value>) {
    v == None || v == Some(Null) || v == Some(Str(""))
  }

  /** `Math.round` applied to a number (NaN stays NaN); any other value is kept. */
  function RoundNumber(v: Option<Value>): (r: Option<Value>)
    ensures v.Some? && v.value.Num? ==> r == Some(Num(Round(v.value.x) as real))
    ensures !(v.Some? && v.value.Num?) ==> r == v
  {
    if v.Some? && v.value.Num? then Some(Num(Round(v.value.x) as real)) else v
  }

  /** What the cleaned object holds under key k, given what the form held there. */
  function SanitizedEntry(k: string, v: Option<Value>): Option<Value> {
    if k in OptionalFields && Nullish(v) then Some(Null)
    else if k == "precio" || k in IntFields then RoundNumber(v)
    else v
  }

  /** The cleaned object: every key of the form plus every optional field. */
  function Sanitized(o: Object): (r: Object)
    ensures forall k :: Get(r, k) == SanitizedEntry(k, Get(o, k))
  {
    var keys := o.Keys + set k | k in OptionalFields;
    var r := map k | k in keys :: SanitizedEntry(k, Get(o, k)).value;
    assert forall k :: Get(r, k) == SanitizedEntry(k, Get(o, k)) by {
      forall k ensures Get(r, k) == SanitizedEntry(k, Get(o, k)) {
        if k !in keys { assert k !in o && k !in OptionalFields; }
      }
    }
    r
  }

  /** The value under k once the first loop has nulled the nullish optional fields. */
  function NulledEntry(k: string, v: Option<Value>): Option<Value> {
    if k in OptionalFields && Nullish(v) then Some(Null) else v
  }

  /** The value under k once the price and the integer fields have been rounded. */
  function RoundedEntry(k: string, v: Option<Value>): Option<Value> {
    if k == "precio" || k in IntFields then RoundNumber(v) else v
  }

  /** The first loop of `sanitizeFormData`. */
  method NullOptionalFields(data: Object) returns (s: Object)
    ensures forall k :: Get(s, k) == NulledEntry(k, Get(data, k))
  {
    s := data;
    var i := 0;
    while i < |OptionalFields|
      invariant 0 <= i <= |OptionalFields|
      invariant forall k ::
        Get(s, k) == (if k in OptionalFields[..i] && Nullish(Get(data, k)) then Some(Null) else Get(data, k))
    {
      var field := OptionalFields[i];
      if Nullish(Get(s, field)) {
        s := s[field := Null];
      }
      assert OptionalFields[..i + 1] == OptionalFields[..i] + [field];
      i := i + 1;
    }
    assert OptionalFields[..i] == OptionalFields;
  }

  /** The price rounding and the second loop of `sanitizeFormData`. */
  method RoundIntegerFields(nulled: Object) returns (s: Object)
    ensures forall k :: Get(s, k) == RoundedEntry(k, Get(nulled, k))
  {
    s := nulled;
    var p := Get(s, "precio");
    if p.Some? && p.value.Num? {
      s := s["precio" := Num(Round(p.value.x) as real)];
    }
    var j := 0;
    while j < |IntFields|
      invariant 0 <= j <= |IntFields|
      invariant forall k ::
        Get(s, k) == (if k == "precio" || k in IntFields[..j] then RoundNumber(Get(nulled, k)) else Get(nulled, k))
    {
      var field := IntFields[j];
      var v := Get(s, field);
      if v.Some? && v.value.Num? {
        s := s[field := Num(Round(v.value.x) as real)];
      }
      assert IntFields[..j + 1] == IntFields[..j] + [field];
      j := j + 1;
    }
    assert IntFields[..j] == IntFields;
  }

  /** `sanitizeFormData`: copy the form, null the nullish optional fields, then round the
      price and the integer fields. */
  method SanitizeFormData(data: Object) returns (sanitized: Object)
    ensures sanitized == Sanitized(data)
  {
    var nulled := NullOptionalFields(data);
    sanitized := RoundIntegerFields(nulled);
    forall k ensures Get(sanitized, k) == Get(Sanitized(data), k) {
      assert k in IntFields ==> k in OptionalFields;
    }
    ObjectsEqual(sanitized, Sanitized(data));
  }

  /** Cleaning a cleaned form changes nothing. */
  lemma SanitizeIdempotent(o: Object)
    ensures Sanitized(Sanitized(o)) == Sanitized(o)
  {
    forall k ensures Get(Sanitized(Sanitized(o)), k) == Get(Sanitized(o), k) {
      var v := Get(o, k);
      if !(k in OptionalFields && Nullish(v)) && (k == "precio" || k in IntFields) && v.Some? && v.value.Num? {
        RoundInteger(Round(v.value.x));
      }
    }
    ObjectsEqual(Sanitized(Sanitized(o)), Sanitized(o));
  }

  /** Keys outside the two lists are copied as they are; optional fields that hold a
      value keep it (rounded when it is an integer field); nullish ones become null. */
  lemma SanitizeTouchesOnlyListedFields(o: Object, k: string)
    ensures k !in OptionalFields && k != "precio" ==> Get(Sanitized(o), k) == Get(o, k)
    ensures k in OptionalFields && Nullish(Get(o, k)) ==> Get(Sanitized(o), k) == Some(Null)
    ensures k in OptionalFields && k !in IntFields && !Nullish(Get(o, k)) ==>
      Get(Sanitized(o), k) == Get(o, k)
    ensures (k == "precio" || k in IntFields) && !Nullish(Get(o, k)) ==>
      Get(Sanitized(o), k) == RoundNumber(Get(o, k))
  {
    assert forall j :: j in IntFields ==> j in OptionalFields;
  }
}
