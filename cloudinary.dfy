/** Cloudinary helpers: the public id of an uploaded image, read off its URL by the
    regular expression `\/upload\/(?:v\d+\/)?(.+?)\.\w+$`, and the two file checks. */
module Cloudinary {
  import opened Wrappers
  import opened Strings
  import opened JsValues

  const UploadSegment := "/upload/"

  /** The literal `/upload/` starts at position p. */
  predicate UploadAt(url: string, p: nat) {
    p + |UploadSegment| <= |url| && url[p..p + |UploadSegment|] == UploadSegment
  }

  /** `\.\w+$`: a dot, then one or more word characters up to the end. */
  predicate ExtensionTail(x: string) {
    |x| >= 2 && x[0] == '.' && forall i :: 1 <= i < |x| ==> IsWordChar(x[i])
  }

  /** `.` matches every character but a line terminator. */
  predicate NoLineTerminator(s: string) {
    forall i :: 0 <= i < |s| ==> !IsLineTerminator(s[i])
  }

  /** The length of a `v\d+/` prefix of t, if t has one. The greedy `\d+` may give back
      digits, but the character after a shorter run is a digit, not `/`, so only the
      full run can be followed by the slash. */
  function VersionLength(t: string): (r: Option<nat>)
    ensures r.Some? ==> 3 <= r.value <= |t| && t[0] == 'v' && t[r.value - 1] == '/'
    ensures r.Some? ==> forall i :: 1 <= i < r.value - 1 ==> IsDigit(t[i])
  {
    if |t| >= 1 && t[0] == 'v' then
      var d := LeadingDigits(t[1..]);
      if |d| >= 1 && 1 + |d| < |t| && t[1 + |d|] == '/' then Some(|d| + 2) else None
    else None
  }

  /** `(.+?)\.\w+$` with the group starting at s: the lazy group grows one character
      at a time from length one, never over a line terminator, and stops at the first
      end e after which the rest of the URL is an extension. */
  function LazyGroup(url: string, s: nat, e: nat): (r: Option<nat>)
    requires s < e <= |url| && NoLineTerminator(url[s..e - 1])
    ensures r.Some? ==> e <= r.value <= |url| && ExtensionTail(url[r.value..])
    ensures r.Some? ==> NoLineTerminator(url[s..r.value])
    ensures r.Some? ==> forall k :: e <= k < r.value ==> !ExtensionTail(url[k..])
    decreases |url| - e
  {
    if IsLineTerminator(url[e - 1]) then None
    else
      assert url[s..e] == url[s..e - 1] + [url[e - 1]];
      if ExtensionTail(url[e..]) then Some(e)
      else if e == |url| then None
      else LazyGroup(url, s, e + 1)
  }

  /** The match attempt at a `/upload/` found at p: first with the version segment
      skipped, then, if that fails, without it. The span of the group is returned. */
  function MatchAt(url: string, p: nat): (r: Option<(nat, nat)>)
    requires UploadAt(url, p)
    ensures r.Some? ==> p + |UploadSegment| <= r.value.0 < r.value.1 <= |url|
    ensures r.Some? ==> ExtensionTail(url[r.value.1..]) && NoLineTerminator(url[r.value.0..r.value.1])
  {
    var s0 := p + |UploadSegment|;
    var v := VersionLength(url[s0..]);
    var withVersion :=
      if v.Some? && s0 + v.value < |url| then LazyGroup(url, s0 + v.value, s0 + v.value + 1) else None;
    if withVersion.Some? then Some((s0 + v.value, withVersion.value))
    else if s0 < |url| then
      var g := LazyGroup(url, s0, s0 + 1);
      if g.Some? then Some((s0, g.value)) else None
    else None
  }

  /** The leftmost position from p on where the whole pattern matches. */
  function Search(url: string, p: nat): (r: Option<(nat, nat)>)
    ensures r.Some? ==> p + |UploadSegment| <= r.value.0 < r.value.1 <= |url|
    ensures r.Some? ==> ExtensionTail(url[r.value.1..]) && NoLineTerminator(url[r.value.0..r.value.1])
    ensures r.Some? ==> exists q :: p <= q && UploadAt(url, q)
    decreases |url| - p
  {
    if p + |UploadSegment| > |url| then None
    else if UploadAt(url, p) && MatchAt(url, p).Some? then MatchAt(url, p)
    else Search(url, p + 1)
  }

  /** `getPublicIdFromUrl`: the captured group of the first match, or null (None). */
  function PublicIdFromUrl(url: string): (r: Option<string>)
    ensures r.Some? ==> r.value != [] && NoLineTerminator(r.value)
    ensures r.Some? ==> exists q :: UploadAt(url, q)
    ensures r.Some? ==> exists ext :: ExtensionTail(ext) && EndsWith(url, r.value + ext)
  {
    var m := Search(url, 0);
    if m.None? then None
    else
      var ext := url[m.value.1..];
      assert url[|url| - |url[m.value.0..m.value.1] + ext|..] == url[m.value.0..m.value.1] + ext;
      Some(url[m.value.0..m.value.1])
  }

  predicate EndsWith(s: string, suffix: string) {
    |suffix| <= |s| && s[|s| - |suffix|..] == suffix
  }

  // ---- properties ----

  /** Without a `/upload/` or without a trailing `.ext`, there is no public id. */
  lemma NoMatchWithoutUploadOrExtension(url: string)
    ensures (forall q :: !UploadAt(url, q)) ==> PublicIdFromUrl(url).None?
    ensures (forall k :: 0 <= k <= |url| ==> !ExtensionTail(url[k..])) ==> PublicIdFromUrl(url).None?
  {
    var m := Search(url, 0);
    if m.Some? {
      assert ExtensionTail(url[m.value.1..]);
    }
  }

  /** Positions without `/upload/` are passed over. */
  lemma {:induction false} SearchSkips(url: string, p: nat, q: nat)
    requires p <= q && forall k :: p <= k < q ==> !UploadAt(url, k)
    ensures Search(url, p) == Search(url, q)
    decreases q - p
  {
    if p < q {
      SearchSkips(url, p + 1, q);
    }
  }

  /** Past the last word character the lazy group reaches the dot before the extension. */
  lemma {:induction false} LazyGroupFindsDot(url: string, s: nat, e: nat, d: nat)
    requires s < e <= d < |url| && NoLineTerminator(url[s..d]) && ExtensionTail(url[d..])
    requires NoLineTerminator(url[s..e - 1])
    ensures LazyGroup(url, s, e) == Some(d)
    decreases d - e
  {
    assert !IsLineTerminator(url[e - 1]) by { assert url[e - 1] == url[s..d][e - 1 - s]; }
    if e < d {
      assert url[e..][d - e] == '.';
      assert !ExtensionTail(url[e..]) by { assert !IsWordChar(url[e..][d - e]); }
      assert NoLineTerminator(url[s..e]) by {
        forall i | 0 <= i < e - s ensures !IsLineTerminator(url[s..e][i]) {
          assert url[s..e][i] == url[s..d][i];
        }
      }
      LazyGroupFindsDot(url, s, e + 1, d);
    }
  }

  /** A match at the first `/upload/` is the answer. */
  lemma FirstUploadDecides(url: string, p: nat, s: nat, d: nat)
    requires forall k :: 0 <= k < p ==> !UploadAt(url, k)
    requires UploadAt(url, p) && MatchAt(url, p) == Some((s, d))
    ensures PublicIdFromUrl(url) == Some(url[s..d])
  {
    assert Search(url, p) == Some((s, d));
    SearchSkips(url, 0, p);
  }

  /** The round trip: after the first `/upload/`, a version segment is skipped and the
      id up to the extension is returned. */
  lemma VersionedUrl(pre: string, digits: string, id: string, ext: string)
    requires |digits| >= 1 && forall i :: 0 <= i < |digits| ==> IsDigit(digits[i])
    requires |id| >= 1 && NoLineTerminator(id)
    requires |ext| >= 1 && forall i :: 0 <= i < |ext| ==> IsWordChar(ext[i])
    requires var url := pre + UploadSegment + "v" + digits + "/" + id + "." + ext;
      forall k :: 0 <= k < |pre| ==> !UploadAt(url, k)
    ensures PublicIdFromUrl(pre + UploadSegment + "v" + digits + "/" + id + "." + ext) == Some(id)
  {
    var url := pre + UploadSegment + "v" + digits + "/" + id + "." + ext;
    var s := |pre| + |UploadSegment| + |digits| + 2;
    VersionedParts(url, pre, digits, id, ext);
    VersionedMatch(url, pre, digits, id, ext);
    FirstUploadDecides(url, |pre|, s, s + |id|);
  }

  lemma VersionedParts(url: string, pre: string, digits: string, id: string, ext: string)
    requires url == pre + UploadSegment + "v" + digits + "/" + id + "." + ext
    ensures var s0 := |pre| + |UploadSegment|; var s := s0 + |digits| + 2; var d := s + |id|;
      && url[|pre|..s0] == UploadSegment
      && url[s0..] == "v" + digits + "/" + (id + "." + ext)
      && url[s..d] == id
      && url[d..] == "." + ext
  {
  }

  lemma VersionedMatch(url: string, pre: string, digits: string, id: string, ext: string)
    requires |digits| >= 1 && forall i :: 0 <= i < |digits| ==> IsDigit(digits[i])
    requires |id| >= 1 && NoLineTerminator(id)
    requires |ext| >= 1 && forall i :: 0 <= i < |ext| ==> IsWordChar(ext[i])
    requires var s0 := |pre| + |UploadSegment|; var s := s0 + |digits| + 2; var d := s + |id|;
      && d < |url|
      && url[|pre|..s0] == UploadSegment
      && url[s0..] == "v" + digits + "/" + (id + "." + ext)
      && url[s..d] == id
      && url[d..] == "." + ext
    ensures UploadAt(url, |pre|)
    ensures var s := |pre| + |UploadSegment| + |digits| + 2;
      MatchAt(url, |pre|) == Some((s, s + |id|))
  {
    var p := |pre|;
    var s0 := p + |UploadSegment|;
    var s := s0 + |digits| + 2;
    var d := s + |id|;
    VersionSkipped(digits, id + "." + ext);
    assert ExtensionTail(url[d..]) by {
      forall i | 1 <= i < |url[d..]| ensures IsWordChar(url[d..][i]) { assert url[d..][i] == ext[i - 1]; }
    }
    LazyGroupFindsDot(url, s, s + 1, d);
  }

  /** No `/upload/` starts before the end of `pre` when `pre` has no slash followed by `u`. */
  lemma NoEarlyUpload(url: string, pre: string)
    requires |pre| <= |url| && url[..|pre|] == pre
    requires forall k :: 0 <= k < |pre| && pre[k] == '/' ==> k + 1 < |pre| && pre[k + 1] != 'u'
    ensures forall k :: 0 <= k < |pre| ==> !UploadAt(url, k)
  {
    forall k | 0 <= k < |pre| ensures !UploadAt(url, k) {
      assert url[k] == pre[k];
      if pre[k] == '/' {
        assert url[k + 1] == pre[k + 1];
      }
    }
  }

  const ExampleHost := "https://res.cloudinary.com/cloudname/image"

  /** The documented example URL,
      https://res.cloudinary.com/cloudname/image/upload/v1234567890/folder/filename.jpg,
      written as its parts. */
  const ExampleUrl := ExampleHost + UploadSegment + "v" + "1234567890" + "/" + "folder/filename" + "." + "jpg"

  /** The documented example: the version is skipped and the extension dropped. */
  lemma DocumentedExample()
    ensures PublicIdFromUrl(ExampleUrl) == Some("folder/filename")
  {
    var pre, digits, id, ext := ExampleHost, "1234567890", "folder/filename", "jpg";
    ExamplePrefix(ExampleUrl);
    ExampleSegments();
    ExampleHostHasNoUpload();
    NoEarlyUpload(ExampleUrl, pre);
    VersionedUrl(pre, digits, id, ext);
  }

  lemma ExamplePrefix(url: string)
    requires url == ExampleUrl
    ensures url[..|ExampleHost|] == ExampleHost
  {
    var rest := UploadSegment + "v" + "1234567890" + "/" + "folder/filename" + "." + "jpg";
    assert url == ExampleHost + rest;
  }

  lemma ExampleSegments()
    ensures forall i :: 0 <= i < |"1234567890"| ==> IsDigit("1234567890"[i])
    ensures NoLineTerminator("folder/filename")
    ensures forall i :: 0 <= i < |"jpg"| ==> IsWordChar("jpg"[i])
  {
  }

  lemma ExampleHostHasNoUpload()
    ensures forall k :: 0 <= k < |ExampleHost| && ExampleHost[k] == '/' ==>
      k + 1 < |ExampleHost| && ExampleHost[k + 1] != 'u'
  {
  }

  /** The same without a version segment, for an id that does not begin with `v<digits>/`. */
  lemma PlainUrl(pre: string, id: string, ext: string)
    requires |id| >= 1 && VersionLength(id + "." + ext).None? && NoLineTerminator(id)
    requires |ext| >= 1 && forall i :: 0 <= i < |ext| ==> IsWordChar(ext[i])
    requires var url := pre + UploadSegment + id + "." + ext;
      forall k :: 0 <= k < |pre| ==> !UploadAt(url, k)
    ensures PublicIdFromUrl(pre + UploadSegment + id + "." + ext) == Some(id)
  {
    var url := pre + UploadSegment + id + "." + ext;
    var s0 := |pre| + |UploadSegment|;
    PlainParts(url, pre, id, ext);
    PlainMatch(url, pre, id, ext);
    FirstUploadDecides(url, |pre|, s0, s0 + |id|);
  }

  lemma PlainParts(url: string, pre: string, id: string, ext: string)
    requires url == pre + UploadSegment + id + "." + ext
    ensures var s0 := |pre| + |UploadSegment|; var d := s0 + |id|;
      && url[|pre|..s0] == UploadSegment
      && url[s0..d] == id
      && url[d..] == "." + ext
  {
  }

  lemma PlainMatch(url: string, pre: string, id: string, ext: string)
    requires |id| >= 1 && VersionLength(id + "." + ext).None? && NoLineTerminator(id)
    requires |ext| >= 1 && forall i :: 0 <= i < |ext| ==> IsWordChar(ext[i])
    requires var s0 := |pre| + |UploadSegment|; var d := s0 + |id|;
      && d < |url|
      && url[|pre|..s0] == UploadSegment
      && url[s0..d] == id
      && url[d..] == "." + ext
    ensures UploadAt(url, |pre|)
    ensures var s0 := |pre| + |UploadSegment|; MatchAt(url, |pre|) == Some((s0, s0 + |id|))
  {
    var p := |pre|;
    var s0 := p + |UploadSegment|;
    var d := s0 + |id|;
    assert url[s0..] == url[s0..d] + url[d..] == id + "." + ext;
    assert url[s0..][0] == id[0];
    assert ExtensionTail(url[d..]) by {
      forall i | 1 <= i < |url[d..]| ensures IsWordChar(url[d..][i]) { assert url[d..][i] == ext[i - 1]; }
    }
    LazyGroupFindsDot(url, s0, s0 + 1, d);
  }

  lemma VersionSkipped(digits: string, rest: string)
    requires |digits| >= 1 && forall i :: 0 <= i < |digits| ==> IsDigit(digits[i])
    ensures VersionLength("v" + digits + "/" + rest) == Some(|digits| + 2)
  {
    var t := "v" + digits + "/" + rest;
    assert t[1..] == digits + ("/" + rest);
    LeadingDigitsOf(digits, "/" + rest);
  }

  // ---- file checks ----

  const ValidImageTypes := ["image/jpeg", "image/png", "image/webp", "image/gif"]

  /** `isValidImageType`. */
  predicate IsValidImageType(mime: string) {
    mime in ValidImageTypes
  }

  /** `isValidImageSize(file, maxSizeMB)`: at most maxSizeMB mebibytes, the limit included. */
  function IsValidImageSize(size: int, maxSizeMB: int): (r: bool)
    ensures r <==> size <= maxSizeMB * 1048576
  {
    size <= maxSizeMB * 1024 * 1024
  }

  const DefaultMaxSizeMB := 5

  /** A file that passes the size check still passes when it is smaller or the limit
      larger, and one that fails a limit fails every smaller one. */
  lemma ImageSizeMonotone(size: int, smaller: int, maxSizeMB: int, larger: int)
    requires smaller <= size && maxSizeMB <= larger
    ensures IsValidImageSize(size, maxSizeMB) ==> IsValidImageSize(smaller, larger)
    ensures !IsValidImageSize(smaller, larger) ==> !IsValidImageSize(size, maxSizeMB)
  {
  }

  /** The accepted types are exactly four, and jpeg, png and webp are among them. */
  lemma ImageTypesAccepted(mime: string)
    ensures IsValidImageType(mime) <==>
      mime == "image/jpeg" || mime == "image/png" || mime == "image/webp" || mime == "image/gif"
  {
  }

  lemma ImageChecks()
    ensures IsValidImageSize(5242880, DefaultMaxSizeMB) && !IsValidImageSize(5242881, DefaultMaxSizeMB)
    ensures IsValidImageType("image/gif") && !IsValidImageType("image/svg+xml")
  {
  }
}
