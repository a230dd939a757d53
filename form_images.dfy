/** The image editor of the listing form in `components/FormInmueble.tsx`: the list of
    image urls shown (the first one is the cover), edited by upload, removal and
    reordering, and the queue of urls whose stored copies are deleted when the listing
    is saved. */
module FormImages {
  import opened Wrappers
  import opened JsValues
  import opened Http
  import opened SeqEdits
  import opened Cloudinary

  const MaxImages := 10
  const TooManyImages := "Máximo 10 imágenes permitidas"
  const UploadFailed := "Error al subir las imágenes. Asegúrate de que sean imágenes válidas (JPG, PNG, WEBP) y menores a 5MB."
  const SaveFailed := "Error al guardar el inmueble"

  /** How the save request of handleSubmit ended: the listing was stored, the server
      answered with an error status, or a request threw with the given message. */
  datatype SaveOutcome = Saved | NotSaved | Threw(message: string)

  class ImageEditor {
    var images: seq<string>
    var imagesToDelete: seq<string>
    var error: string

    /** The editor of a stored listing starts from its images, a new listing from []. */
    constructor (stored: seq<string>)
      ensures images == stored && imagesToDelete == [] && error == ""
    {
      images := stored;
      imagesToDelete := [];
      error := "";
    }

    /** handleFileSelect for `count` chosen files; `uploaded` is what the uploads of all
        of them together gave: their urls in selection order, or None when one failed. */
    method HandleFileSelect(count: nat, uploaded: Option<seq<string>>)
      requires uploaded.Some? ==> |uploaded.value| == count
      modifies this
      ensures count == 0 ==> images == old(images) && error == old(error)
      ensures count > 0 && |old(images)| + count > MaxImages ==>
        images == old(images) && error == TooManyImages
      ensures count > 0 && |old(images)| + count <= MaxImages && uploaded.None? ==>
        images == old(images) && error == UploadFailed
      ensures count > 0 && |old(images)| + count <= MaxImages && uploaded.Some? ==>
        images == old(images) + uploaded.value && error == ""
      ensures |old(images)| <= MaxImages ==> |images| <= MaxImages
      ensures imagesToDelete == old(imagesToDelete)
    {
      if count == 0 {
        return;
      }
      error := "";
      if |images| + count > MaxImages {
        error := TooManyImages;
        return;
      }
      match uploaded
      case None =>
        error := UploadFailed;
      case Some(urls) =>
        images := images + urls;
    }

    /** handleRemoveImage: drops position `index` and queues `url` for deletion. */
    method HandleRemoveImage(index: int, url: string)
      modifies this
      ensures images == RemoveAt(old(images), index)
      ensures imagesToDelete == old(imagesToDelete) + [url]
      ensures error == old(error)
    {
      imagesToDelete := imagesToDelete + [url];
      images := RemoveAt(images, index);
    }

    /** handleMoveImage; every button passes the position of an image shown as `from`. */
    method HandleMoveImage(from: int, to: int)
      requires 0 <= from < |images|
      modifies this
      ensures !(0 <= to < |old(images)|) ==> images == old(images)
      ensures 0 <= to < |old(images)| ==> images == Moved(old(images), from, to)
      ensures imagesToDelete == old(imagesToDelete) && error == old(error)
    {
      if to < 0 || to >= |images| {
        return;
      }
      images := Moved(images, from, to);
    }

    /** handleRemoveAllImages: every shown image is queued for deletion, in order. */
    method HandleRemoveAllImages()
      modifies this
      ensures images == []
      ensures imagesToDelete == old(imagesToDelete) + old(images)
      ensures error == old(error)
    {
      imagesToDelete := imagesToDelete + images;
      images := [];
    }

    /** The end of handleSubmit: the deletion queue is cleared only once the listing is
        saved; otherwise the error message is shown and the queue kept. */
    method FinishSubmit(outcome: SaveOutcome)
      modifies this
      ensures outcome.Saved? ==> imagesToDelete == [] && error == ""
      ensures outcome.NotSaved? ==> imagesToDelete == old(imagesToDelete) && error == SaveFailed
      ensures outcome.Threw? ==> imagesToDelete == old(imagesToDelete) && error == outcome.message
      ensures images == old(images)
    {
      error := "";
      match outcome
      case Saved =>
        imagesToDelete := [];
      case NotSaved =>
        error := SaveFailed;
      case Threw(m) =>
        error := m;
    }
  }

  // ---- handleSubmit's derived data ----

  /** `urls.map(getPublicIdFromUrl).filter(Boolean)`: the ids that were found, in order. */
  function PublicIds(urls: seq<string>): (r: seq<string>)
    ensures |r| <= |urls|
    ensures forall x :: x in r ==> x != "" && exists u :: u in urls && PublicIdFromUrl(u) == Some(x)
  {
    if urls == [] then []
    else
      var id := PublicIdFromUrl(urls[0]);
      var rest := PublicIds(urls[1..]);
      if id.Some? && id.value != "" then [id.value] + rest else rest
  }

  /** The ids that were found, null results left out and nothing else. */
  function FoundIds(urls: seq<string>): (r: seq<string>)
    ensures |r| <= |urls|
  {
    if urls == [] then []
    else
      var id := PublicIdFromUrl(urls[0]);
      if id.Some? then [id.value] + FoundIds(urls[1..]) else FoundIds(urls[1..])
  }

  /** Only the urls without an id are dropped: an id is never the empty string, so
      `filter(Boolean)` removes exactly the nulls. */
  lemma {:induction false} PublicIdsDropOnlyNulls(urls: seq<string>)
    ensures PublicIds(urls) == FoundIds(urls)
  {
    if urls != [] {
      PublicIdsDropOnlyNulls(urls[1..]);
    }
  }

  /** The ids keep the order of the urls they come from. */
  lemma {:induction false} PublicIdsAppend(a: seq<string>, b: seq<string>)
    ensures PublicIds(a + b) == PublicIds(a) + PublicIds(b)
  {
    if a != [] {
      assert (a + b)[0] == a[0] && (a + b)[1..] == a[1..] + b;
      PublicIdsAppend(a[1..], b);
    } else {
      assert a + b == b;
    }
  }

  /** The deletion request of handleSubmit, sent only when the queue holds at least one
      url with an id. */
  function DeleteRequest(imagesToDelete: seq<string>): (r: Option<seq<string>>)
    ensures r.Some? ==> r.value == PublicIds(imagesToDelete) && r.value != []
    ensures r.None? ==> PublicIds(imagesToDelete) == []
  {
    if |imagesToDelete| > 0 then
      var ids := PublicIds(imagesToDelete);
      if |ids| > 0 then Some(ids) else None
    else None
  }

  /** A checkbox is on exactly when the form sent "on" for it. */
  predicate Checked(v: Option<Value>) {
    v == Some(Str("on"))
  }

  /** `data.k ? parseInt(data.k) : null`, and the same with parseFloat. */
  function OptionalInt(v: Option<Value>): (r: Value)
    ensures !Truthy(v) ==> r == Null
    ensures Truthy(v) ==> r.Num? || r.NaN?
    ensures r.Num? ==> IsInteger(r.x)
  {
    if Truthy(v) then ParseInt(v) else Null
  }

  function OptionalFloat(v: Option<Value>): (r: Value)
    ensures !Truthy(v) ==> r == Null
    ensures r.Num? || r.NaN? || r.Null?
  {
    if Truthy(v) then ParseFloat(v) else Null
  }

  /** parsedData: the form entries (`rest`, whose other keys are sent as they are)
      overridden by the converted numbers, the five checkboxes and the editor's images. */
  datatype Payload = Payload(
    rest: Object, precio: Value, area: Value, habitaciones: Value, banos: Value,
    pisos: Value, antiguedad: Value, estrato: Value, tieneGaraje: bool, amoblado: bool,
    destacado: bool, accesoAgua: bool, accesoLuz: bool, lat: Value, lng: Value,
    imagenes: seq<string>)

  function ParsedData(data: Object, images: seq<string>): Payload {
    Payload(
      rest := data,
      precio := ParseInt(Get(data, "precio")),
      area := OptionalFloat(Get(data, "area")),
      habitaciones := OptionalInt(Get(data, "habitaciones")),
      banos := OptionalInt(Get(data, "banos")),
      pisos := OptionalInt(Get(data, "pisos")),
      antiguedad := OptionalInt(Get(data, "antiguedad")),
      estrato := OptionalInt(Get(data, "estrato")),
      tieneGaraje := Checked(Get(data, "tieneGaraje")),
      amoblado := Checked(Get(data, "amoblado")),
      destacado := Checked(Get(data, "destacado")),
      accesoAgua := Checked(Get(data, "accesoAgua")),
      accesoLuz := Checked(Get(data, "accesoLuz")),
      lat := OptionalFloat(Get(data, "lat")),
      lng := OptionalFloat(Get(data, "lng")),
      imagenes := images)
  }

  /** The payload sends the editor's current images, an unticked checkbox (absent from
      the form) as false, and an empty optional number as null. */
  lemma PayloadFields(data: Object, images: seq<string>)
    ensures var p := ParsedData(data, images);
      && p.imagenes == images
      && (p.destacado <==> Get(data, "destacado") == Some(Str("on")))
      && (Get(data, "tieneGaraje").None? ==> !p.tieneGaraje)
      && (Get(data, "habitaciones") == Some(Str("")) ==> p.habitaciones == Null)
      && (Get(data, "lat") == Some(Str("")) ==> p.lat == Null)
      && (p.precio.Num? ==> IsInteger(p.precio.x))
  {
  }

  /** `inmueble ? PUT /api/inmuebles/{id} : POST /api/inmuebles`. */
  function SaveRequest(listingId: Option<int>): (r: Request)
    ensures r.Put? <==> listingId.Some?
    ensures r.Put? ==> r.id == listingId.value
  {
    match listingId
    case Some(id) => Put(id)
    case None => Post
  }
}
