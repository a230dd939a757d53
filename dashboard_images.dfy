/** The image state of the dashboard listing form (`components/dashboard/Inmuebleform.tsx`,
    whose handlers `types/ImageHandler.tsx` repeats): the shown images (stored urls
    first, then a `data:` preview per new file), the new files waiting for upload, and
    the message line; plus what onSubmit sends. */
module DashboardImages {
  import opened Wrappers
  import opened JsValues
  import opened Strings
  import opened Http
  import opened SeqEdits
  import opened FormUtils

  /** A chosen file: its MIME type and its size in bytes. */
  datatype File = File(mime: string, size: int)

  /** The message line: a success or an error text. */
  datatype Message = Message(success: bool, text: string)

  /** What the save request gave: stored, an error status with the `error` text of its
      body (None when the body has no such text), or a request that threw. */
  datatype SaveReply = Stored | Refused(error: Option<string>) | Unreachable

  const MaxImages := 10
  const MaxFileBytes := 5 * 1024 * 1024
  const AcceptedTypes := ["image/jpeg", "image/png", "image/webp"]
  const TooManyImages := "Máximo 10 imágenes por propiedad"
  const InvalidImages := "Algunas imágenes no son válidas. Solo se permiten JPG, PNG, WebP hasta 5MB"
  const ConnectionError := "Error de conexión"
  const SaveError := "Error al guardar"
  const PreviewPrefix := "data:"

  predicate ValidFile(f: File) {
    f.mime in AcceptedTypes && f.size <= MaxFileBytes
  }

  /** The `invalidFiles` filter: the files of a bad type or over 5 MiB, in order. */
  function InvalidFiles(files: seq<File>): (r: seq<File>)
    ensures forall f :: f in r ==> f in files && !ValidFile(f)
    ensures forall i :: 0 <= i < |files| && !ValidFile(files[i]) ==> files[i] in r
    ensures r == [] <==> forall i :: 0 <= i < |files| ==> ValidFile(files[i])
  {
    if files == [] then []
    else if ValidFile(files[0]) then InvalidFiles(files[1..])
    else [files[0]] + InvalidFiles(files[1..])
  }

  /** The checks of handleImageUpload, in their order: the count first, then the files. */
  function UploadCheck(shown: nat, files: seq<File>): (r: Option<string>)
    ensures r == Some(TooManyImages) <==> shown + |files| > MaxImages
    ensures r.None? <==>
      shown + |files| <= MaxImages && forall i :: 0 <= i < |files| ==> ValidFile(files[i])
    ensures r.Some? ==> r == Some(TooManyImages) || r == Some(InvalidImages)
  {
    if shown + |files| > MaxImages then Some(TooManyImages)
    else if |InvalidFiles(files)| > 0 then Some(InvalidImages)
    else None
  }

  /** A file of exactly 5 MiB of an accepted type passes; one byte more does not. */
  lemma SizeBoundary(mime: string)
    requires mime in AcceptedTypes
    ensures ValidFile(File(mime, 5242880)) && !ValidFile(File(mime, 5242881))
  {
  }

  /** The stored urls come first and each new file has its `data:` preview, in the
      order of the files, after them. */
  predicate Paired(images: seq<string>, files: seq<File>) {
    |files| <= |images| &&
    forall i :: 0 <= i < |images| ==>
      (StartsWith(images[i], PreviewPrefix) <==> i >= |images| - |files|)
  }

  class ImageState {
    var images: seq<string>
    var imageFiles: seq<File>
    var message: Option<Message>

    predicate Valid()
      reads this
    {
      Paired(images, imageFiles)
    }

    /** `initialData?.imagenes || []`: stored urls, none of them a preview. */
    constructor (stored: seq<string>)
      requires forall i :: 0 <= i < |stored| ==> !StartsWith(stored[i], PreviewPrefix)
      ensures Valid()
      ensures images == stored && imageFiles == [] && message == None
    {
      images := stored;
      imageFiles := [];
      message := None;
    }

    /** handleImageUpload with the chosen files (None when the input has none) and the
        `data:` url read for each of them. */
    method HandleImageUpload(files: Option<seq<File>>, previews: seq<string>)
      requires Valid()
      requires files.Some? ==> |previews| == |files.value|
      requires forall i :: 0 <= i < |previews| ==> StartsWith(previews[i], PreviewPrefix)
      modifies this
      ensures Valid()
      ensures files.None? ==>
        images == old(images) && imageFiles == old(imageFiles) && message == old(message)
      ensures files.Some? && UploadCheck(|old(images)|, files.value).Some? ==>
        && images == old(images) && imageFiles == old(imageFiles)
        && message == Some(Message(false, UploadCheck(|old(images)|, files.value).value))
      ensures files.Some? && UploadCheck(|old(images)|, files.value).None? ==>
        && imageFiles == old(imageFiles) + files.value
        && images == old(images) + previews
        && message == old(message)
      ensures |old(images)| <= MaxImages ==> |images| <= MaxImages
    {
      if files.None? {
        return;
      }
      var check := UploadCheck(|images|, files.value);
      if check.Some? {
        message := Some(Message(false, check.value));
        return;
      }
      imageFiles := imageFiles + files.value;
      images := images + previews;
    }

    /** removeImage(index), pairing corrected: the shown image and, when it is a preview,
        the file it shows leave together. */
    method RemoveImage(index: int)
      requires Valid()
      modifies this
      ensures Valid()
      ensures images == RemoveAt(old(images), index)
      ensures imageFiles == RemoveAt(old(imageFiles), index - (|old(images)| - |old(imageFiles)|))
      ensures message == old(message)
    {
      var stored := |images| - |imageFiles|;
      images := RemoveAt(images, index);
      imageFiles := RemoveAt(imageFiles, index - stored);
    }

    /** onSubmit: uploads the new files, then sends the sanitized form with the merged
        image list and the seller of the page; `sent` is the request, None when an
        upload failed and nothing was sent. */
    method OnSubmit(data: Object, vendedorId: int, inmuebleId: Option<int>,
                    upload: File -> Option<string>, save: (Request, Object) -> SaveReply)
      returns (sent: Option<(Request, Object)>)
      modifies this
      ensures images == old(images) && imageFiles == old(imageFiles)
      ensures sent.None? <==> exists i :: 0 <= i < |imageFiles| && upload(imageFiles[i]).None?
      ensures sent.None? ==> message == Some(Message(false, ConnectionError))
      ensures sent.Some? ==> sent.value.0 == SaveRequest(inmuebleId)
      ensures sent.Some? ==>
        sent.value.1 == RequestBody(Sanitized(data), Merged(images, UploadedUrls(imageFiles, upload)), vendedorId)
      ensures sent.Some? ==> message == Some(Reported(save(sent.value.0, sent.value.1), inmuebleId))
    {
      message := None;
      var imageUrls: seq<string> := [];
      if |imageFiles| > 0 {
        var uploaded := UploadImages(imageFiles, upload);
        if uploaded.None? {
          message := Some(Message(false, ConnectionError));
          return None;
        }
        imageUrls := uploaded.value;
      }
      var all := Merged(images, imageUrls);
      var sanitized := SanitizeFormData(data);
      var body := RequestBody(sanitized, all, vendedorId);
      var request := SaveRequest(inmuebleId);
      message := Some(Reported(save(request, body), inmuebleId));
      return Some((request, body));
    }
  }

  /** removeImage as written: position `index` leaves both lists. */
  function RemoveImageAsWritten(images: seq<string>, files: seq<File>, index: int): (r: (seq<string>, seq<File>))
    ensures 0 <= index < |images| ==> |r.0| == |images| - 1
    ensures 0 <= index < |files| ==> |r.1| == |files| - 1
    ensures !(0 <= index < |files|) ==> r.1 == files
  {
    (RemoveAt(images, index), RemoveAt(files, index))
  }

  /** With stored images shown, removing a new image's preview leaves its file to be
      uploaded and saved: one stored url, one preview, its file; removing position 1. */
  lemma AsWrittenKeepsRemovedFile(u: string, p: string, f: File)
    requires !StartsWith(u, PreviewPrefix) && StartsWith(p, PreviewPrefix)
    ensures Paired([u, p], [f])
    ensures RemoveImageAsWritten([u, p], [f], 1) == ([u], [f])
    ensures !Paired([u], [f])
  {
    assert [u, p][..1] + [u, p][2..] == [u];
    assert !StartsWith([u][0], PreviewPrefix);
  }

  /** When no stored image is shown the two versions agree. */
  lemma AsWrittenAgreesWithoutStored(images: seq<string>, files: seq<File>, index: int)
    requires Paired(images, files) && |images| == |files|
    ensures RemoveImageAsWritten(images, files, index) == (RemoveAt(images, index), RemoveAt(files, index - (|images| - |files|)))
  {
  }

  /** The corrected removal keeps the images and files paired. */
  lemma RemoveKeepsPaired(images: seq<string>, files: seq<File>, index: int)
    requires Paired(images, files)
    ensures Paired(RemoveAt(images, index), RemoveAt(files, index - (|images| - |files|)))
  {
    var stored := |images| - |files|;
    var imgs := RemoveAt(images, index);
    var fs := RemoveAt(files, index - stored);
    if 0 <= index < |images| {
      forall i | 0 <= i < |imgs|
        ensures StartsWith(imgs[i], PreviewPrefix) <==> i >= |imgs| - |fs|
      {
        if i < index {
          assert imgs[i] == images[i];
        } else {
          assert imgs[i] == images[i + 1];
        }
      }
    }
  }

  /** `uploadImages`: the files one after the other; a failed upload fails the whole
      call, so the urls come back one per file, in order, or not at all. */
  method UploadImages(files: seq<File>, upload: File -> Option<string>) returns (r: Option<seq<string>>)
    ensures r.Some? <==> forall i :: 0 <= i < |files| ==> upload(files[i]).Some?
    ensures r.Some? ==> r.value == UploadedUrls(files, upload)
  {
    if |files| == 0 {
      return Some([]);
    }
    var urls: seq<string> := [];
    for i := 0 to |files|
      invariant urls == UploadedUrls(files[..i], upload)
      invariant forall j :: 0 <= j < i ==> upload(files[j]).Some?
    {
      var url := upload(files[i]);
      if url.None? {
        return None;
      }
      assert files[..i + 1] == files[..i] + [files[i]];
      UploadedUrlsAppend(files[..i], files[i], upload);
      urls := urls + [url.value];
    }
    assert files[..|files|] == files;
    return Some(urls);
  }

  /** The url each upload gave, file by file. */
  function UploadedUrls(files: seq<File>, upload: File -> Option<string>): (r: seq<string>)
    ensures |r| == |files|
    ensures forall i :: 0 <= i < |files| && upload(files[i]).Some? ==> r[i] == upload(files[i]).value
  {
    seq(|files|, i requires 0 <= i < |files| => upload(files[i]).GetOr(""))
  }

  lemma UploadedUrlsAppend(files: seq<File>, f: File, upload: File -> Option<string>)
    requires upload(f).Some?
    ensures UploadedUrls(files + [f], upload) == UploadedUrls(files, upload) + [upload(f).value]
  {
  }

  /** `images.filter((img) => !img.startsWith("data:"))`. */
  function KeptUrls(images: seq<string>): (r: seq<string>)
    ensures forall x :: x in r ==> x in images && !StartsWith(x, PreviewPrefix)
    ensures |r| <= |images|
  {
    if images == [] then []
    else if StartsWith(images[0], PreviewPrefix) then KeptUrls(images[1..])
    else [images[0]] + KeptUrls(images[1..])
  }

  /** `todasImagenes`: the kept urls, then the uploaded ones. */
  function Merged(images: seq<string>, uploaded: seq<string>): (r: seq<string>)
    ensures |uploaded| <= |r| <= |images| + |uploaded|
    ensures r[|r| - |uploaded|..] == uploaded
  {
    KeptUrls(images) + uploaded
  }

  /** With the lists paired, the saved list is exactly the stored urls still shown, in
      their order, followed by one uploaded url per new file. */
  lemma {:induction false} KeptAreStored(images: seq<string>, files: seq<File>)
    requires Paired(images, files)
    ensures KeptUrls(images) == images[..|images| - |files|]
    decreases |images|
  {
    if images != [] {
      if |images| == |files| {
        assert StartsWith(images[0], PreviewPrefix);
        assert Paired(images[1..], files[1..]) by {
          forall i | 0 <= i < |images[1..]|
            ensures StartsWith(images[1..][i], PreviewPrefix) <==> i >= |images[1..]| - |files[1..]|
          {
            assert images[1..][i] == images[i + 1];
          }
        }
        KeptAreStored(images[1..], files[1..]);
      } else {
        assert !StartsWith(images[0], PreviewPrefix);
        assert Paired(images[1..], files) by {
          forall i | 0 <= i < |images[1..]|
            ensures StartsWith(images[1..][i], PreviewPrefix) <==> i >= |images[1..]| - |files|
          {
            assert images[1..][i] == images[i + 1];
          }
        }
        KeptAreStored(images[1..], files);
        assert images[..|images| - |files|] == [images[0]] + images[1..][..|images[1..]| - |files|];
      }
    }
  }

  lemma SavedImages(images: seq<string>, files: seq<File>, uploaded: seq<string>)
    requires Paired(images, files) && |uploaded| == |files|
    ensures Merged(images, uploaded) == images[..|images| - |files|] + uploaded
  {
    KeptAreStored(images, files);
  }

  /** `inmuebleId ? PUT /api/inmuebles/{id} : POST /api/inmuebles`; an id of 0 is falsy. */
  function SaveRequest(inmuebleId: Option<int>): (r: Request)
    ensures r.Put? <==> inmuebleId.Some? && inmuebleId.value != 0
    ensures r.Put? ==> r.id == inmuebleId.value
  {
    if inmuebleId.Some? && inmuebleId.value != 0 then Put(inmuebleId.value) else Post
  }

  function Strs(s: seq<string>): (r: seq<Value>)
    ensures |r| == |s| && forall i :: 0 <= i < |s| ==> r[i] == Str(s[i])
  {
    seq(|s|, i requires 0 <= i < |s| => Str(s[i]))
  }

  /** `{ ...sanitizedData, imagenes, vendedorId }`: the seller is the page's, whatever
      the form held. */
  function RequestBody(sanitized: Object, imagenes: seq<string>, vendedorId: int): (r: Object)
    ensures Get(r, "imagenes") == Some(Arr(Strs(imagenes)))
    ensures Get(r, "vendedorId") == Some(Num(vendedorId as real))
    ensures forall k :: k != "imagenes" && k != "vendedorId" ==> Get(r, k) == Get(sanitized, k)
  {
    sanitized["imagenes" := Arr(Strs(imagenes))]["vendedorId" := Num(vendedorId as real)]
  }

  /** The message after the save request. */
  function Reported(reply: SaveReply, inmuebleId: Option<int>): (r: Message)
    ensures r.success <==> reply.Stored?
    ensures reply.Refused? && reply.error.Some? && reply.error.value != "" ==> r.text == reply.error.value
    ensures reply.Unreachable? ==> r.text == ConnectionError
  {
    match reply
    case Stored =>
      Message(true, if SaveRequest(inmuebleId).Put? then "Inmueble actualizado correctamente"
                    else "Inmueble creado correctamente")
    case Refused(e) =>
      Message(false, if e.Some? && e.value != "" then e.value else SaveError)
    case Unreachable => Message(false, ConnectionError)
  }
}
