# Inmobiliaria — a verified model of the listing core

Inmobiliaria is a Next.js site where a real-estate seller publishes property listings
("inmuebles") and visitors browse them. This project models the parts of it that
decide what is stored, shown and sent, and proves properties of them in Dafny:

- **Public listing endpoint** (`PublicListing`, `Pagination`). The query string of
  `GET /api/inmuebles/public` becomes a store predicate (`where`), a page window and
  an ordering. `Matches` gives the predicate its meaning on one stored listing.
  `Satisfies` states the same filter straight from the parameters. The lemmas tie the
  two together.
- **Seller endpoints** (`ListingCreate`, `SellerSettings`, `Http`):
  - `POST /api/inmuebles` creates a listing. It checks the required fields, fills in
    defaults and parses numbers.
  - `GET /api/inmuebles` lists the seller's own listings, page by page.
  - `PUT /api/vendedor/configuracion` saves the seller's WhatsApp number, keeping its
    digits only.
- **Form conventions** (`ListingSchema`, `FormUtils`):
  - the zod schema of the listing form, one rule per field;
  - `parseInitialData`, which fills the form from a stored listing;
  - `sanitizeFormData`, which cleans a parsed form before it is sent.
- **Image handling** (`Cloudinary`, `FormImages`, `DashboardImages`, `SeqEdits`):
  - the public-id extraction from a Cloudinary url (its regular expression written out
    as a matcher), plus the file-type and file-size checks;
  - the image editor of `components/FormInmueble.tsx`: upload, removal, reordering and
    a deletion queue;
  - the image state of the dashboard form `components/dashboard/Inmuebleform.tsx`
    (handlers repeated in `types/ImageHandler.tsx`): `data:` previews for new files,
    upload on submit, and the request sent.
- **Pages** (`ListingsPage`, `DashboardTable`, `DashboardStats`):
  - the public listings page builds query parameters, sorts by the chosen order, and
    collects the cities offered in its filter;
  - the seller's table filters its rows by text and status, and the dashboard shows
    counters.
- **Route guard** (`Middleware`): where `/login` and `/dashboard` requests go, given
  the `auth-token` cookie.

The common modules are:

- `Wrappers`: Option and Result.
- `Strings`:
  - JavaScript whitespace, trimming and lower-casing;
  - `includes`;
  - digit extraction;
  - the code-point order of `sort()`.
- `JsValues`:
  - JSON values and objects;
  - truthiness, `||` and `??`;
  - `parseInt`, `parseFloat`, `Number` and `Math.round` on decimal text.

JavaScript numbers are modelled as exact reals. No rounding of doubles is modelled.

## Model

| member | source | states |
|---|---|---|
| Strings.Lower | components/dashboard/InmuebleTable.tsx:42-45 | `toLowerCase` maps each character to its lower-case form, keeping the length |
| Strings.LowerIdempotent | components/dashboard/InmuebleTable.tsx:42-45 | lower-casing twice is lower-casing once |
| Strings.TrimStart | app/api/vendedor/configuracion/route.ts:16 | the result is a suffix of the input that does not start with whitespace, and every character removed is whitespace |
| Strings.TrimEnd | app/api/vendedor/configuracion/route.ts:16 | the result is a prefix of the input that does not end with whitespace, and every character removed is whitespace |
| Strings.TrimEmptyIffAllWhitespace | app/api/vendedor/configuracion/route.ts:16 | `trim() === ""` holds exactly when every character is JavaScript whitespace |
| Strings.TrimStartKeeps | app/api/vendedor/configuracion/route.ts:16 | text that does not start with whitespace is left as it is by trimming |
| Strings.DigitsOf | app/api/vendedor/configuracion/route.ts:24 | `replace(/\D/g, "")` leaves only decimal digits and never lengthens the text |
| Strings.DigitsOfIsSubsequence | app/api/vendedor/configuracion/route.ts:24 | the digits kept appear in the input in the same order |
| Strings.DigitsOfIdempotent | app/api/vendedor/configuracion/route.ts:24 | removing non-digits twice is removing them once |
| Strings.DigitsOfDigits | app/api/vendedor/configuracion/route.ts:24 | text made of digits is left unchanged |
| Strings.DigitsOfAppend | app/api/vendedor/configuracion/route.ts:24 | digit extraction distributes over concatenation |
| Strings.ContainsAt | components/dashboard/InmuebleTable.tsx:43-45 | a needle found at a position means `includes` holds |
| Strings.ContainsEmpty | components/dashboard/InmuebleTable.tsx:43-45 | every text includes the empty text |
| Strings.LessIrreflexive | app/inmuebles/page.tsx:93 | the order of `sort()` is irreflexive |
| Strings.LessTransitive | app/inmuebles/page.tsx:93 | the order of `sort()` is transitive |
| Strings.LessTotal | app/inmuebles/page.tsx:93 | any two different texts are ordered one way or the other |
| Strings.LessAsymmetric | app/inmuebles/page.tsx:93 | no two texts are each before the other |
| JsValues.Get | app/api/inmuebles/route.ts:14 | reading a key gives a value exactly when the key is in the object |
| JsValues.Or | app/api/inmuebles/route.ts:44 | `a \|\| b` is `a` when `a` is truthy and `b` otherwise |
| JsValues.Coalesce | types/InmuebleUtils.ts:14 | `a ?? b` is `b` exactly for null or undefined, otherwise `a` |
| JsValues.Put | types/InmuebleUtils.ts:42 | writing a key changes that key only |
| JsValues.ObjectsEqual | types/InmuebleUtils.ts:42 | two objects that agree on every key are equal |
| JsValues.ParseIntText | app/api/inmuebles/route.ts:43 | `parseInt` of text gives an integer or NaN |
| JsValues.ParseInt | app/api/inmuebles/route.ts:43 | `parseInt` of any value gives an integer or NaN |
| JsValues.LeadingDigitsOf | app/api/inmuebles/route.ts:43 | the digit run at the start of `d + rest` is `d` when `rest` does not continue it |
| JsValues.ParseIntUntrimmed | app/api/inmuebles/route.ts:43 | on text without leading blanks, `parseInt` is the sign times the digit run after it |
| JsValues.ParseIntReadsLeadingDigits | app/api/inmuebles/route.ts:43 | `parseInt("12abc")` is 12: the leading digits are read and what follows is ignored |
| JsValues.ParseIntReadsSign | app/api/inmuebles/route.ts:43 | a leading minus sign negates the value of the digits after it |
| JsValues.ParseFloat | app/api/inmuebles/route.ts:45 | `parseFloat` gives a number or NaN |
| JsValues.ToNumber | lib/schemas/inmueble.ts:45 | `Number(v)` gives a number or NaN |
| JsValues.Round | types/InmuebleUtils.ts:71 | `Math.round(x)` is the integer within one half of x, with halves going up |
| JsValues.RoundInteger | types/InmuebleUtils.ts:78 | rounding an integer gives it back |
| JsValues.DigitsValueAppend | app/api/inmuebles/route.ts:43 | one more digit multiplies the value by ten and adds the digit |
| Pagination.WindowOf | app/api/inmuebles/public/route.ts:131-133 | page defaults to 1 and limit to the route's default; `skip + limit = page * limit` |
| Pagination.PageCount | app/api/inmuebles/public/route.ts:199 | `Math.ceil(total / limit)` is not a finite number exactly when the limit is 0 |
| Pagination.PageItems | app/api/inmuebles/public/route.ts:140-188 | `skip`/`take`: at most `limit` rows, the slice from `skip`, or none past the end |
| Pagination.PageCountIsCeiling | app/api/inmuebles/public/route.ts:199 | for a positive limit, `pages` is the least page count whose pages hold every row |
| Pagination.HasMoreIffRowsRemain | app/api/inmuebles/public/route.ts:200 | `hasMore` holds exactly when rows remain after the rows of this page |
| Pagination.PagesTile | app/api/inmuebles/public/route.ts:131-140 | pages 1..k together are exactly the first k·limit rows, in order |
| Pagination.NextOffset | app/api/inmuebles/public/route.ts:133 | page k starts where page k-1 ends |
| Pagination.FiftyRowsInPagesOf24 | app/api/inmuebles/public/route.ts:131-200 | 50 rows with the default limit of 24 give 3 pages; page 3 holds rows 48-49 and has no more after it |
| PublicListing.BuildWhere | app/api/inmuebles/public/route.ts:30-128 | the handler's step-by-step construction of `where` gives the predicate `WhereOf` |
| PublicListing.AddStatusAndPlace | app/api/inmuebles/public/route.ts:34-57 | status (default DISPONIBLE), type, city and department are set only when given |
| PublicListing.AddNumberRanges | app/api/inmuebles/public/route.ts:60-86 | price and area ranges, room counts and stratum are set only when given |
| PublicListing.AddFeatureFlags | app/api/inmuebles/public/route.ts:89-109 | each flag parameter becomes `=== "true"` only when given |
| PublicListing.AddRuralAndText | app/api/inmuebles/public/route.ts:111-128 | topography, road access and the text search are set only when given |
| PublicListing.WhereMeansSatisfies | app/api/inmuebles/public/route.ts:30-128 | a listing matches the built `where` exactly when it satisfies every given parameter |
| PublicListing.StatusAlwaysConstrained | app/api/inmuebles/public/route.ts:19 | the status is always filtered: the parameter, or DISPONIBLE when it is absent |
| PublicListing.KeysFollowParameters | app/api/inmuebles/public/route.ts:39-128 | each `where` key is present exactly when its parameter is |
| PublicListing.NoFiltersMeansAvailable | app/api/inmuebles/public/route.ts:19-36 | with no parameters, exactly the available listings match |
| PublicListing.PriceRangeInclusive | app/api/inmuebles/public/route.ts:60-64 | both price bounds are inclusive; an inverted range matches nothing |
| PublicListing.AreaRangeInclusive | app/api/inmuebles/public/route.ts:77-81 | both area bounds are inclusive; an inverted range matches nothing; a listing without area never matches |
| PublicListing.RoomFiltersAreExact | app/api/inmuebles/public/route.ts:67-74 | `minHabitaciones` and `minBanos` match the exact count, not a minimum |
| PublicListing.FlagParameters | app/api/inmuebles/public/route.ts:89-109 | "true" filters on true, any other non-empty text filters on false, an empty one is ignored |
| PublicListing.SearchIsConjoined | app/api/inmuebles/public/route.ts:120-128 | the text search is added as one more condition next to the other filters |
| PublicListing.Matching | app/api/inmuebles/public/route.ts:140-142 | the rows that match, all of them, and nothing else |
| PublicListing.MatchingIsFilter | app/api/inmuebles/public/route.ts:140-142 | the matching rows are the store filtered by the predicate |
| PublicListing.MatchingKeepsOrder | app/api/inmuebles/public/route.ts:140-142 | the matching rows keep the store order |
| PublicListing.PageOf | app/api/inmuebles/public/route.ts:140-200 | the page is the `skip`/`take` slice of the rows, at most `limit` of them; `total` counts all of them; `pages` is the ceiling of total/limit; `hasMore` holds exactly when rows remain after the page |
| PublicListing.Respond | app/api/inmuebles/public/route.ts:131-213 | every row returned satisfies the parameters; `total` counts all matches; the data is the `skip = (page-1)·limit`, `take = limit` slice of the matching rows, at most `limit` of them; `pages` is the ceiling of total/limit; `hasMore` holds exactly when rows remain; a window the store refuses gives 500 "Error al obtener los inmuebles" |
| PublicListing.OrderingOf | app/api/inmuebles/public/route.ts:136-137 | `orderBy` defaults to publicadoEn and `orderDir` to desc |
| ListingCreate.Create | app/api/inmuebles/route.ts:6-71 | 401 without a session; 500 for a body that does not parse or is `null`; 400 "Faltan campos requeridos" exactly when a required field is falsy; otherwise the insert |
| ListingCreate.NonObjectBodyMissesFields | app/api/inmuebles/route.ts:14-35 | a body that is neither an object nor `null` lacks every required field and gets the 400 |
| ListingCreate.AfterInsert | app/api/inmuebles/route.ts:73-100 | the new id on success; a foreign-key failure gives 400 "Vendedor no válido"; any other failure gives 500 |
| ListingCreate.RejectionsInsertNothing | app/api/inmuebles/route.ts:10-35 | without a session, or with a falsy required field (a price of 0 or "" included), nothing is inserted |
| ListingCreate.OwnerIsSessionSeller | app/api/inmuebles/route.ts:62 | the owner is the session's seller; a `vendedorId` in the body changes nothing |
| ListingCreate.DefaultsForMissingFields | app/api/inmuebles/route.ts:44-69 | missing fields take COP, square metres, [], DISPONIBLE, false or null |
| ListingCreate.OptionalNumbersNullWhenFalsy | app/api/inmuebles/route.ts:45-59 | each of the eight optional numbers is stored as null when falsy and parsed when truthy |
| ListingCreate.OwnQueryOf | app/api/inmuebles/route.ts:105-114 | 401 without a session; otherwise the seller's own query, page 1 and limit 10 by default |
| ListingCreate.OwnRows | app/api/inmuebles/route.ts:117-118 | exactly the rows whose owner is the seller |
| ListingCreate.OwnRowsIsFilter | app/api/inmuebles/route.ts:117-118 | the own rows are the store filtered by owner |
| ListingCreate.OwnRowsKeepOrder | app/api/inmuebles/route.ts:117-118 | the own rows keep the store order |
| ListingCreate.OwnListing | app/api/inmuebles/route.ts:117-153 | the `skip = (page-1)·limit`, `take = limit` slice of the caller's rows, so only the caller's rows and at most `limit` of them; `total` counts all of them; `pages` is the page count; a refused window gives 500 |
| ListingCreate.OwnPagesCoverOwnRows | app/api/inmuebles/route.ts:145 | the last page is the first one that reaches the seller's row count |
| ListingCreate.OwnListingDefaults | app/api/inmuebles/route.ts:112-114 | with no parameters, the first ten own rows come back |
| SellerSettings.Normalize | app/api/vendedor/configuracion/route.ts:24 | the stored number holds only digits and is no longer than the input |
| SellerSettings.NormalizeKeepsOrder | app/api/vendedor/configuracion/route.ts:24 | the digits keep their order |
| SellerSettings.NormalizeKeepsDigits | app/api/vendedor/configuracion/route.ts:24 | a number made of digits is stored as typed |
| SellerSettings.NormalizeIdempotent | app/api/vendedor/configuracion/route.ts:24 | normalising twice is normalising once |
| SellerSettings.NormalizeComposes | app/api/vendedor/configuracion/route.ts:24 | normalising distributes over concatenation |
| SellerSettings.GroupDigits | app/api/vendedor/configuracion/route.ts:24 | a separator before a group of digits is dropped |
| SellerSettings.SpacedNumber | app/api/vendedor/configuracion/route.ts:24 | "+g0 g1 g2 g3" keeps exactly the digits of the four groups |
| SellerSettings.ColombianDigits | app/api/vendedor/configuracion/route.ts:24 | "+57 300 123 4567" is stored as "573001234567" |
| SellerSettings.Configure | app/api/vendedor/configuracion/route.ts:5-51 | 401 without a session; 400 "El número de WhatsApp es requerido" for a falsy or blank number; 400 "Número de WhatsApp inválido" for fewer than 10 digits; 500 when the body does not parse or is `null`, or the number is not a string; otherwise the update, with the digits only |
| SellerSettings.NonObjectBodyNeedsWhatsapp | app/api/vendedor/configuracion/route.ts:13-21 | a body that is neither an object nor `null` reads `whatsapp` as undefined and gets the 400 |
| SellerSettings.SpacedNumberStored | app/api/vendedor/configuracion/route.ts:16-41 | a spaced number with enough digits updates the session's seller with its digits |
| ListingSchema.TextField | lib/schemas/inmueble.ts:6-20 | a text passes exactly when it is a string within its length bounds |
| ListingSchema.ChoiceField | lib/schemas/inmueble.ts:23-41 | an enum passes exactly when it is one of its options; an absent one takes its default |
| ListingSchema.NullableChoiceField | lib/schemas/inmueble.ts:131-143 | a nullable enum passes when absent, null or one of its options |
| ListingSchema.NullableTextField | lib/schemas/inmueble.ts:145 | `cultivos` passes when absent, null or a string |
| ListingSchema.FlagField | lib/schemas/inmueble.ts:124-138 | a flag passes exactly when it is a boolean, and defaults to false |
| ListingSchema.PriceField | lib/schemas/inmueble.ts:44-50 | the price passes exactly when `Number` gives an integer of at least 1; blank fails |
| ListingSchema.CountField | lib/schemas/inmueble.ts:62-111 | a count is null when blank and otherwise passes exactly when it is an integer within bounds; an absent one fails |
| ListingSchema.MeasureField | lib/schemas/inmueble.ts:53-60 | a measure is null when blank and otherwise passes exactly when it is a number at least its minimum |
| ListingSchema.AllFieldsComplete | lib/schemas/inmueble.ts:4-146 | the field list covers every field of the schema |
| ListingSchema.AllPassedMeansEveryField | lib/schemas/inmueble.ts:4-146 | the checks all pass exactly when every field passes |
| ListingSchema.SomeFieldFailed | lib/schemas/inmueble.ts:4-146 | when the checks do not all pass, some field fails |
| ListingSchema.Failures | lib/schemas/inmueble.ts:4-146 | the failing fields are exactly those whose rule rejects the form |
| ListingSchema.Validate | lib/schemas/inmueble.ts:4-146 | success exactly when every field passes; otherwise the non-empty set of failing fields |
| ListingSchema.AcceptedFormMeetsRules | lib/schemas/inmueble.ts:6-143 | an accepted form meets every length, enum, minimum, integer and stratum rule |
| ListingSchema.AcceptedFormDefaults | lib/schemas/inmueble.ts:35-145 | texts pass unchanged and absent fields take COP, square metres, DISPONIBLE, false or undefined |
| ListingSchema.BlankNumbersAreNull | lib/schemas/inmueble.ts:53-111 | blank optional numbers become null; present ones keep their value |
| ListingSchema.PriceAndTipoRequired | lib/schemas/inmueble.ts:23-50 | a blank or missing price, or a missing type, rejects the form |
| ListingSchema.EstratoOutOfRangeRejected | lib/schemas/inmueble.ts:102-111 | a stratum outside 1..6 rejects the form |
| ListingSchema.PriceBelowOneRejected | lib/schemas/inmueble.ts:44-50 | a price below 1 rejects the form |
| ListingSchema.ShortTitleOrMissingNumberRejected | lib/schemas/inmueble.ts:6-9 | a title under 5 characters rejects the form, and so does an absent number field (`Number(undefined)` is NaN) |
| FormUtils.InitialDefaults | types/InmuebleUtils.ts:4-37 | missing texts become "", missing enums take their defaults, missing flags become false; present texts are kept |
| FormUtils.InitialNumbers | types/InmuebleUtils.ts:12-35 | `??` keeps a stored 0 and nulls only null or undefined; `\|\|` turns a missing price into 0 |
| FormUtils.RoundNumber | types/InmuebleUtils.ts:70-80 | numbers are rounded and anything else is left alone |
| FormUtils.Sanitized | types/InmuebleUtils.ts:39-83 | each key of the result is the cleaned value of the same key of the input |
| FormUtils.NullOptionalFields | types/InmuebleUtils.ts:45-67 | the loop writes null on nullish optional fields and copies every other key |
| FormUtils.RoundIntegerFields | types/InmuebleUtils.ts:69-80 | precio and the integer fields are rounded when they are numbers; other keys are copied |
| FormUtils.SanitizeFormData | types/InmuebleUtils.ts:39-83 | the imperative cleaning gives exactly `Sanitized(data)` |
| FormUtils.SanitizeIdempotent | types/InmuebleUtils.ts:39-83 | cleaning a cleaned form changes nothing |
| FormUtils.SanitizeTouchesOnlyListedFields | types/InmuebleUtils.ts:45-80 | unlisted keys are copied; nullish optionals become null; others keep their value, rounded for integer fields |
| Cloudinary.VersionLength | lib/cloudinary.ts:46 | `v\d+\/` matches "v", at least one digit, then "/" |
| Cloudinary.LazyGroup | lib/cloudinary.ts:46 | `(.+?)` ends at the first position after the start where `\.\w+$` matches, with no line terminator before it |
| Cloudinary.MatchAt | lib/cloudinary.ts:46 | a match found at an "/upload/" lies after it and ends in an extension at the end of the url |
| Cloudinary.Search | lib/cloudinary.ts:46 | a match from a position lies after some "/upload/" at or past it |
| Cloudinary.PublicIdFromUrl | lib/cloudinary.ts:43-52 | a found id is non-empty, follows "/upload/" and is followed only by one extension |
| Cloudinary.NoMatchWithoutUploadOrExtension | lib/cloudinary.ts:46-47 | no "/upload/", or no extension at the end, gives null |
| Cloudinary.SearchSkips | lib/cloudinary.ts:46 | positions without "/upload/" are skipped |
| Cloudinary.LazyGroupFindsDot | lib/cloudinary.ts:46 | the lazy group stops at the first dot whose tail is an extension |
| Cloudinary.FirstUploadDecides | lib/cloudinary.ts:46-47 | the first "/upload/" with a match decides the id |
| Cloudinary.VersionedUrl | lib/cloudinary.ts:45-47 | `…/upload/v<digits>/<id>.<ext>` gives `<id>` |
| Cloudinary.VersionedParts | lib/cloudinary.ts:45-46 | where the parts of a versioned url lie |
| Cloudinary.VersionedMatch | lib/cloudinary.ts:46 | the match at "/upload/" of a versioned url skips the version |
| Cloudinary.NoEarlyUpload | lib/cloudinary.ts:46 | a prefix with no "/u" holds no "/upload/" |
| Cloudinary.DocumentedExample | lib/cloudinary.ts:45-47 | the url of the source comment gives "folder/filename" |
| Cloudinary.ExamplePrefix | lib/cloudinary.ts:45 | the example url starts with its host part |
| Cloudinary.ExampleSegments | lib/cloudinary.ts:45 | the version, id and extension of the example have the right characters |
| Cloudinary.ExampleHostHasNoUpload | lib/cloudinary.ts:45 | the example host holds no "/u" |
| Cloudinary.PlainUrl | lib/cloudinary.ts:46-47 | `…/upload/<id>.<ext>`, where `<id>.<ext>` does not begin with `v<digits>/`, gives `<id>` |
| Cloudinary.PlainParts | lib/cloudinary.ts:46 | where the parts of an unversioned url lie |
| Cloudinary.PlainMatch | lib/cloudinary.ts:46 | the match at "/upload/" of an unversioned url |
| Cloudinary.VersionSkipped | lib/cloudinary.ts:46 | "v<digits>/" is consumed as the version |
| Cloudinary.IsValidImageSize | lib/cloudinary.ts:81-83 | a size passes exactly when it is at most maxSizeMB·1024·1024 bytes |
| Cloudinary.ImageChecks | lib/cloudinary.ts:75-83 | 5 MiB passes and one byte more fails; gif is accepted and svg is not |
| Cloudinary.ImageSizeMonotone | lib/cloudinary.ts:81-83 | a smaller file or a larger limit never turns a pass into a failure |
| Cloudinary.ImageTypesAccepted | lib/cloudinary.ts:75-78 | a type passes exactly when it is jpeg, png, webp or gif |
| SeqEdits.Filter | components/FormInmueble.tsx:84 | the kept elements are exactly those that meet the predicate; none is added |
| SeqEdits.FilterIsSubsequence | components/dashboard/InmuebleTable.tsx:41 | filtering keeps the order |
| SeqEdits.FilterSamePredicate | components/dashboard/InmuebleTable.tsx:41 | predicates that agree on the elements filter alike |
| SeqEdits.FilterKeepsAll | components/dashboard/InmuebleTable.tsx:41 | a predicate every element meets keeps the whole list |
| SeqEdits.RemoveAt | components/FormInmueble.tsx:84 | `filter((_, i) => i !== index)` drops one position, or nothing for an index out of range |
| SeqEdits.InsertAt | components/FormInmueble.tsx:94 | `splice(to, 0, x)` puts x at position `to` and shifts the rest |
| SeqEdits.Moved | components/FormInmueble.tsx:92-94 | moving keeps the length and puts the moved image at `to` |
| SeqEdits.RemoveAtMultiset | components/FormInmueble.tsx:84 | removal takes out exactly one occurrence of the removed element |
| SeqEdits.RemoveInserted | components/FormInmueble.tsx:92-94 | removing what was just inserted gives the list back |
| SeqEdits.InsertRemoved | components/FormInmueble.tsx:92-94 | putting back what was just removed gives the list back |
| SeqEdits.MovedIsPermutation | components/FormInmueble.tsx:89-96 | moving an image only reorders the images |
| SeqEdits.MovedKeepsOthers | components/FormInmueble.tsx:89-96 | apart from the moved image, the others keep their relative order |
| SeqEdits.MoveBack | components/FormInmueble.tsx:89-96 | moving back undoes a move |
| FormImages.ImageEditor.constructor | components/FormInmueble.tsx:19-20 | the editor starts from the stored images with an empty deletion queue |
| FormImages.ImageEditor.HandleFileSelect | components/FormInmueble.tsx:43-76 | no files: no change; over 10: "Máximo 10 imágenes permitidas"; a failed upload: the upload error; otherwise the urls are appended; never more than 10 images |
| FormImages.ImageEditor.HandleRemoveImage | components/FormInmueble.tsx:79-86 | the position is dropped and its url queued for deletion |
| FormImages.ImageEditor.HandleMoveImage | components/FormInmueble.tsx:89-96 | a target out of range changes nothing; otherwise the image moves to the target |
| FormImages.ImageEditor.HandleRemoveAllImages | components/FormInmueble.tsx:99-104 | every shown image is queued for deletion, in order, and none remains |
| FormImages.ImageEditor.FinishSubmit | components/FormInmueble.tsx:162-183 | the queue is cleared only after a successful save; otherwise the error is shown and the queue kept |
| FormImages.PublicIds | components/FormInmueble.tsx:121-123 | every id kept is non-empty and comes from one of the urls |
| FormImages.FoundIds | components/FormInmueble.tsx:121-123 | the ids that were found, null results left out |
| FormImages.PublicIdsDropOnlyNulls | components/FormInmueble.tsx:121-123 | `filter(Boolean)` removes exactly the urls without an id |
| FormImages.PublicIdsAppend | components/FormInmueble.tsx:121-123 | the ids keep the order of their urls |
| FormImages.DeleteRequest | components/FormInmueble.tsx:120-131 | the deletion request is sent exactly when some queued url has an id, and it carries those ids |
| FormImages.OptionalInt | components/FormInmueble.tsx:139-147 | a falsy entry becomes null; a truthy one becomes an integer or NaN |
| FormImages.OptionalFloat | components/FormInmueble.tsx:138 | a falsy entry becomes null; a truthy one becomes a number or NaN |
| FormImages.PayloadFields | components/FormInmueble.tsx:135-157 | the payload sends the editor's images; a checkbox is true only for "on"; empty optional numbers are null; the price is an integer |
| FormImages.SaveRequest | components/FormInmueble.tsx:159-160 | PUT to the listing's id exactly when editing one, else POST |
| DashboardImages.InvalidFiles | components/dashboard/Inmuebleform.tsx:82-88 | the files rejected are exactly those of a bad type or over 5 MiB: every such file is in the result and no other |
| DashboardImages.UploadCheck | components/dashboard/Inmuebleform.tsx:77-96 | "Máximo 10 imágenes por propiedad" exactly when over 10; no error exactly when the count fits and every file is valid |
| DashboardImages.SizeBoundary | types/ImageHandler.tsx:29 | a file of exactly 5 MiB passes and one byte more fails |
| DashboardImages.ImageState.constructor | components/dashboard/Inmuebleform.tsx:31-32 | the state starts from the stored images with no new files, paired |
| DashboardImages.ImageState.HandleImageUpload | components/dashboard/Inmuebleform.tsx:73-110 | a refused choice shows its message and changes no list; an accepted one appends the files and their previews; the pairing is kept; never more than 10 images |
| DashboardImages.ImageState.RemoveImage | components/dashboard/Inmuebleform.tsx:112-115 | corrected removal (see Findings): the image leaves, and with a preview the file it shows; the pairing is kept |
| DashboardImages.ImageState.OnSubmit | components/dashboard/Inmuebleform.tsx:118-177 | nothing is sent and "Error de conexión" is shown exactly when an upload fails; otherwise it sends PUT/POST with the cleaned form, the kept stored urls followed by the uploaded ones, and the page's seller; the message reports the reply |
| DashboardImages.RemoveImageAsWritten | components/dashboard/Inmuebleform.tsx:112-115 | removeImage as written: position `index` leaves both lists |
| DashboardImages.AsWrittenKeepsRemovedFile | components/dashboard/Inmuebleform.tsx:112-115 | with one stored url and one preview, removing the preview keeps its file: the lists are no longer paired |
| DashboardImages.AsWrittenAgreesWithoutStored | components/dashboard/Inmuebleform.tsx:112-115 | with no stored images shown, the two removals agree |
| DashboardImages.RemoveKeepsPaired | components/dashboard/Inmuebleform.tsx:112-115 | the corrected removal keeps images and files paired |
| DashboardImages.UploadImages | types/ImageHandler.tsx:65-101 | one url per file, in order, exactly when every upload succeeds; otherwise none |
| DashboardImages.UploadedUrls | types/ImageHandler.tsx:72-93 | one url per file, the one its upload gave |
| DashboardImages.UploadedUrlsAppend | types/ImageHandler.tsx:92 | `push` appends the url of the next file |
| DashboardImages.KeptUrls | components/dashboard/Inmuebleform.tsx:130 | only urls that are not `data:` previews are kept, no more than there were |
| DashboardImages.Merged | components/dashboard/Inmuebleform.tsx:129-132 | the saved list ends with the uploaded urls |
| DashboardImages.KeptAreStored | components/dashboard/Inmuebleform.tsx:129-132 | with the lists paired, the kept urls are exactly the stored ones still shown, in order |
| DashboardImages.SavedImages | components/dashboard/Inmuebleform.tsx:129-132 | the saved list is the stored urls still shown, then one uploaded url per new file |
| DashboardImages.SaveRequest | components/dashboard/Inmuebleform.tsx:142-145 | PUT exactly for a truthy id (0 is falsy), else POST |
| DashboardImages.Strs | components/dashboard/Inmuebleform.tsx:138 | the url list as JSON strings, one per url |
| DashboardImages.RequestBody | components/dashboard/Inmuebleform.tsx:136-140 | the body sets `imagenes` and the page's `vendedorId`; every other key is the cleaned form's |
| DashboardImages.Reported | components/dashboard/Inmuebleform.tsx:153-174 | success exactly for a stored reply; the server's error text when there is one; "Error de conexión" when the request threw |
| ListingsPage.FilterFields | app/inmuebles/page.tsx:44-51 | the six filters as parameter name and text |
| ListingsPage.Param | app/inmuebles/page.tsx:73 | a parameter is appended exactly when its value is non-empty |
| ListingsPage.BuildParams | app/inmuebles/page.tsx:72-79 | the sequence of appends gives `ParamsOf` |
| ListingsPage.ParamsAreNonEmptyFilters | app/inmuebles/page.tsx:72-79 | the parameters are exactly the non-empty filters, followed by the status DISPONIBLE |
| ListingsPage.ResetSendsOnlyStatus | app/inmuebles/page.tsx:156-165 | with the filters reset, only the status is sent |
| ListingsPage.OrderOf | app/inmuebles/page.tsx:114-127 | the five listed orders, and any other value compares all listings as equal |
| ListingsPage.Insert | app/inmuebles/page.tsx:113 | insertion adds exactly one element |
| ListingsPage.InsertSorted | app/inmuebles/page.tsx:113 | insertion keeps a sorted list sorted |
| ListingsPage.InsertMultiset | app/inmuebles/page.tsx:113 | insertion adds exactly the inserted card |
| ListingsPage.Sort | app/inmuebles/page.tsx:113-128 | sorting keeps the length |
| ListingsPage.SortIsSorted | app/inmuebles/page.tsx:113-128 | the shown list is sorted by the order's key |
| ListingsPage.SortIsPermutation | app/inmuebles/page.tsx:113-128 | the shown list is a permutation of the fetched one |
| ListingsPage.InsertKeepsTies | app/inmuebles/page.tsx:113-128 | an insertion keeps the order of the cards of each key, the new card first among its own key |
| ListingsPage.SortIsStable | app/inmuebles/page.tsx:113-128 | cards with equal keys keep their fetched relative order |
| ListingsPage.PriceOrders | app/inmuebles/page.tsx:115-118 | ascending prices do not decrease; descending ones do not increase |
| ListingsPage.AreaOrders | app/inmuebles/page.tsx:119-120 | areas ascend, a missing area counting as 0 |
| ListingsPage.RecentFirst | app/inmuebles/page.tsx:123-124 | newest publication first |
| ListingsPage.UnlistedOrderKeepsList | app/inmuebles/page.tsx:125-126 | an unknown order leaves the list as fetched |
| ListingsPage.InsertCity | app/inmuebles/page.tsx:87-93 | adding a city keeps the list strictly sorted, adding only that city |
| ListingsPage.HasCityCons | app/inmuebles/page.tsx:89-91 | the cities of a list are those of its head and its tail |
| ListingsPage.UniqueCities | app/inmuebles/page.tsx:87-93 | strictly sorted, and exactly the non-null cities of the listings |
| ListingsPage.NoDuplicates | app/inmuebles/page.tsx:87-88 | no city is offered twice |
| ListingsPage.TipoLabel | app/inmuebles/page.tsx:144-154 | an unknown code is shown as it is |
| ListingsPage.KnownLabels | app/inmuebles/page.tsx:145-152 | the six known codes get their labels |
| ListingsPage.Page.constructor | app/inmuebles/page.tsx:39-54 | no listings or cities, empty filters, order "recientes" |
| ListingsPage.Page.Shown | app/inmuebles/page.tsx:112-129 | the shown list is a permutation of the listings, sorted by the chosen order |
| ListingsPage.Page.Loaded | app/inmuebles/page.tsx:84-102 | a successful array answer sets the listings and the unique sorted cities; anything else empties both |
| ListingsPage.Page.ResetFilters | app/inmuebles/page.tsx:156-165 | the filters are emptied and nothing else changes |
| DashboardTable.Shown | components/dashboard/InmuebleTable.tsx:41-52 | exactly the rows that match the search and the status |
| DashboardTable.ShownKeepsOrder | components/dashboard/InmuebleTable.tsx:41-52 | the filtered rows keep the table's order |
| DashboardTable.NoFiltersShowAll | components/dashboard/InmuebleTable.tsx:42-49 | with no search and no status, every row is shown |
| DashboardTable.StatusFilterHonoured | components/dashboard/InmuebleTable.tsx:47-49 | with a status chosen, every shown row has it |
| DashboardTable.SearchIgnoresCase | components/dashboard/InmuebleTable.tsx:43-45 | the letter case of the search does not change the result |
| DashboardStats.CountEstado | app/dashboard/inmuebles/page.tsx:46-50 | a status count is at most the number of listings |
| DashboardStats.Estadisticas | app/dashboard/inmuebles/page.tsx:44-52 | `total` is the number of listings, and every counter is at most the total |
| DashboardStats.TwoStatusesFit | app/dashboard/inmuebles/page.tsx:46-50 | the counts of two different statuses together are at most the total |
| DashboardStats.AvailablePlusSoldAtMostTotal | app/dashboard/inmuebles/page.tsx:44-52 | available plus sold is at most the total |
| Middleware.VerifyToken | middleware.ts:11-24 | a token passes exactly when it is longer than ten characters |
| Middleware.Route | middleware.ts:26-63 | /login with a token goes to /dashboard; dashboard without a token goes to /login; with a short token it goes to /login and deletes the cookie; no redirect is to the page itself |
| Middleware.EverythingElseContinues | middleware.ts:34-62 | every other request continues |
| Middleware.NoRedirectLoop | middleware.ts:26-63 | every request settles within two redirects, and on the dashboard only with a token that passes |
| Middleware.ShortTokenAtLogin | middleware.ts:35-58 | a short token at /login goes to /dashboard, loses its cookie there and ends at /login |

## Left out

- Database, sessions and network:
  - the database (Prisma) is a parameter, a sequence of rows in store order;
  - the session lookup (`getCurrentVendedor`) is an `Option` parameter;
  - the Cloudinary upload and delete calls are functions given as parameters.
  - `lib/auth.ts` (JWT, bcrypt), the login and logout routes, and the Cloudinary API
    routes are not part of this model.
- Store ordering: `orderBy: { publicadoEn: "desc" }` and the requested ordering of
  the public route are not applied to the rows. The store order is taken as given.
  `OrderingOf` only states which ordering is requested.
- PublicListing.Respond: an `orderBy` that names no column, or an `orderDir` other than
  `asc`/`desc`, makes the store query fail, which the route answers with 500; the model
  answers Ok. A filter value outside a column's enumeration (tipo, estado, topografia,
  viaAcceso) may fail the same way, depending on the store schema, which is not part of
  this model.
- Store selection: `include`/`select` projections are left out. Rows carry only the
  columns the filters read.
- Store rejection: a negative `skip` or `take` is modelled as the store rejecting the
  query, which the handlers answer with 500. Prisma's reading of a negative `take`
  without a cursor is not modelled.
- Query-string parsing: numeric query parameters arrive already parsed. A NaN
  page or limit (non-numeric text) is not modelled. URLSearchParams encoding is
  left out.
- Numbers:
  - JavaScript numbers are exact reals; no double rounding, overflow, `Infinity` or
    `-0` is modelled;
  - `parseInt`/`parseFloat`/`Number` read decimal text only, with no hexadecimal,
    exponent or `Infinity` forms;
  - `Number([])` and `Number([x])` are NaN in the model, not 0 or x;
  - when the price is a number, `parseInt` truncates it directly instead of going
    through the number's text form.
- JsValues.ParseInt: an array gives NaN, whereas JavaScript parses the array's text
  form (`parseInt([5])` is 5); the array-to-text step is not modelled.
- JsValues.ParseFloat: an array gives NaN, whereas `parseFloat([1.5])` is 1.5; the
  array-to-text step is not modelled.
- Nested objects: a JSON field holding an object has no `Value`, so bodies with
  object-valued fields are not represented.
- Text:
  - strings are sequences of code points, so `length` counts code points, not UTF-16
    units;
  - `toLowerCase`, and Prisma's `mode: "insensitive"`, fold ASCII and Latin-1 letters
    only;
  - `sort()` order is code-point order, which agrees with UTF-16 order only below
    U+10000.
- Asynchrony: React state updates are applied at once. The previews of `FileReader`
  are taken in file order. Loading flags, timeouts, `router.push`/`refresh` and the
  console logs are left out.
- The listing detail, update and delete handlers (`app/api/inmuebles/[id]/route.ts`)
  and the purely presentational components are not part of this model.
- The middleware `matcher` is left out: `Route` is stated for every path, and paths
  outside `/login` and `/dashboard` continue.
- `getTipoLabel` on keys inherited from `Object.prototype` (such as "toString") is not
  modelled; such a code shows as itself.
- FormImages.ImageEditor.HandleMoveImage: requires `from` to be a shown position.
  Both buttons that call it pass the image's own index (components/FormInmueble.tsx:243
  and 266). `splice` with a `from` out of range, which would insert `undefined`, is
  not modelled.
- DashboardImages.ImageState.HandleImageUpload: requires one `data:` preview per
  chosen file, in file order, standing for the FileReader results.
- DashboardImages.ImageState.constructor: requires that no stored url starts with
  `data:`; stored listings hold uploaded urls only.
- Cloudinary.DocumentedExample: the example url of the source comment is written as
  concatenated parts, with its text spelled out in its doc comment.
- `uploadMultipleToCloudinary`, `fileToBase64` and `deleteFromCloudinary` do I/O only
  and are left out.
- ListingCreate.Create: the console log of the received fields is left out.

## Findings

| source | as written | input that shows it | evidently intended | confidence | as-written member | corrected member |
|---|---|---|---|---|---|---|
| components/dashboard/Inmuebleform.tsx:112-115 (also types/ImageHandler.tsx:56-63) | `removeImage(index)` removes position `index` from both `images` and `imageFiles`. When stored urls are shown first, a position in `images` is not the same position in `imageFiles`. | a stored url `u`, then one new file `f` with preview `p`; `removeImage(1)` removes `p` but keeps `f`, which is then uploaded and saved | remove the file whose preview was removed, at `index - (number of stored urls shown)` | high; not executed | DashboardImages.RemoveImageAsWritten, DashboardImages.AsWrittenKeepsRemovedFile | DashboardImages.ImageState.RemoveImage, DashboardImages.RemoveKeepsPaired |
