/** The blob-storage helpers: the MIME allow-lists and the 5 MB image cap of
    `uploadImage`, `uploadAudio` and `uploadFlyer`, the paths they store
    under, and `getContentType`, which maps a file name's extension to a MIME
    type. A helper that throws is an `Err` with the thrown message; one that
    stores returns the write it asks the blob store for (the store's URL
    answer is not modelled). `Date.now()` is the parameter `now`. */
module Blob {
  import opened Common

  const ImageTypes: seq<string> := ["image/jpeg", "image/png", "image/webp"]
  const AudioTypes: seq<string> := ["audio/mpeg", "audio/aiff", "audio/wav", "audio/x-aiff"]
  const MaxImageSize := 5 * 1024 * 1024

  /** An uploaded file: its name, MIME type and size in bytes. */
  datatype File = File(name: string, mimeType: string, size: nat)

  /** A write to the blob store: the path, and the content type sent with it. */
  datatype Put = Put(path: string, contentType: string)

  const InvalidAudioError := "Invalid audio type. Allowed: mp3, aiff, wav"

  /** "Invalid image type. Allowed: " followed by the allow-list. */
  function InvalidImageError(): string {
    "Invalid image type. Allowed: " + Join(ImageTypes, ", ")
  }

  /** "Image too large. Max size: " followed by the cap in megabytes. */
  function ImageTooLargeError(): string {
    "Image too large. Max size: " + NatToDecimal(MaxImageSize / 1024 / 1024) + "MB"
  }

  /** `<prefix>/<Date.now()>-<file name>` */
  function StoredPath(prefix: string, now: nat, file: File): string {
    prefix + "/" + NatToDecimal(now) + "-" + file.name
  }

  /** The shared guard of the image helpers: type, then size. */
  function CheckImage(file: File): (r: Result<()>)
    ensures r.Ok? <==> file.mimeType in ImageTypes && file.size <= MaxImageSize
    ensures file.mimeType !in ImageTypes ==> r == Err(InvalidImageError())
    ensures file.mimeType in ImageTypes && file.size > MaxImageSize ==> r == Err(ImageTooLargeError())
  {
    if file.mimeType !in ImageTypes then Err(InvalidImageError())
    else if file.size > MaxImageSize then Err(ImageTooLargeError())
    else Ok(())
  }

  function UploadImage(file: File, now: nat): (r: Result<Put>)
    ensures r.Ok? <==> CheckImage(file).Ok?
    ensures r.Err? ==> r.message == CheckImage(file).message
    ensures r.Ok? ==> r.value == Put(StoredPath("images", now, file), file.mimeType)
  {
    match CheckImage(file)
    case Err(message) => Err(message)
    case Ok(_) => Ok(Put(StoredPath("images", now, file), file.mimeType))
  }

  /** Audio has a type check and no size limit. */
  function UploadAudio(file: File, now: nat): (r: Result<Put>)
    ensures r.Ok? <==> file.mimeType in AudioTypes
    ensures r.Err? ==> r.message == InvalidAudioError
    ensures r.Ok? ==> r.value == Put(StoredPath("audio", now, file), file.mimeType)
  {
    if file.mimeType !in AudioTypes then Err(InvalidAudioError)
    else Ok(Put(StoredPath("audio", now, file), file.mimeType))
  }

  function UploadFlyer(file: File, now: nat): (r: Result<Put>)
    ensures r.Ok? <==> CheckImage(file).Ok?
    ensures r.Err? ==> r.message == CheckImage(file).message
    ensures r.Ok? ==> r.value == Put(StoredPath("flyers", now, file), file.mimeType)
  {
    match CheckImage(file)
    case Err(message) => Err(message)
    case Ok(_) => Ok(Put(StoredPath("flyers", now, file), file.mimeType))
  }

  /** The size message names 5MB, and the cap is inclusive: a file of exactly
      5 MiB passes, one byte more does not. */
  lemma ImageCapIsFiveMegabytes(name: string, mimeType: string)
    requires mimeType in ImageTypes
    ensures ImageTooLargeError() == "Image too large. Max size: 5MB"
    ensures CheckImage(File(name, mimeType, 5 * 1024 * 1024)).Ok?
    ensures CheckImage(File(name, mimeType, 5 * 1024 * 1024 + 1)) == Err("Image too large. Max size: 5MB")
  {
    assert NatToDecimal(5) == "5";
  }

  /** The type message lists the allow-list in order. */
  lemma InvalidImageMessage()
    ensures InvalidImageError()
            == "Invalid image type. Allowed: " + "image/jpeg" + ", " + "image/png" + ", " + "image/webp"
  {
    var xs := ImageTypes;
    assert xs[1..] == ["image/png", "image/webp"];
    assert xs[1..][1..] == ["image/webp"];
  }

  /** Images, audio and flyers land under distinct prefixes, so no two
      successful uploads of different kinds share a path. */
  lemma StoredPathsDisjoint(f1: File, f2: File, t1: nat, t2: nat)
    ensures var p1, p2, p3 := StoredPath("images", t1, f1), StoredPath("audio", t2, f2), StoredPath("flyers", t2, f2);
            p1 != p2 && p1 != p3 && p2 != p3
  {
    var p1, p2, p3 := StoredPath("images", t1, f1), StoredPath("audio", t2, f2), StoredPath("flyers", t2, f2);
    assert p1[0] == 'i' && p2[0] == 'a' && p3[0] == 'f';
  }

  // ---------------------------------------------------------------------------
  // Content type by extension

  const OctetStream := "application/octet-stream"

  /** The `types` record of `getContentType`. */
  const ContentTypes: map<string, string> := map[
    "jpg" := "image/jpeg",
    "jpeg" := "image/jpeg",
    "png" := "image/png",
    "webp" := "image/webp",
    "mp3" := "audio/mpeg",
    "aiff" := "audio/aiff",
    "wav" := "audio/wav"]

  /** `filename.split('.').pop().toLowerCase()`: the text after the last '.',
      or the whole name when it has none. */
  function Extension(filename: string): (ext: string)
    ensures '.' !in ext && |ext| <= |filename|
    ensures forall i :: 0 <= i < |ext| ==> !('A' <= ext[i] <= 'Z')
  {
    ToLower(AfterLast(filename, '.'))
  }

  /** The members every plain JavaScript object inherits from
      `Object.prototype` whose names are already lower case (the others can
      never equal a lower-cased extension). Indexing `types` with one of them
      yields that inherited function or object, which is truthy. */
  const InheritedNames: set<string> := {"constructor", "__proto__"}

  /** The value `types[ext || ''] || 'application/octet-stream'` evaluates to. */
  datatype JsValue = Text(text: string) | InheritedMember(name: string)

  /** `getContentType` as written: the record lookup also finds the members
      inherited from `Object.prototype`. */
  function ContentTypeAsWritten(filename: string): (r: JsValue)
    ensures r.InheritedMember? <==> Extension(filename) in InheritedNames
    ensures r.Text? ==> r.text == GetContentType(filename)
  {
    var ext := Extension(filename);
    if ext in ContentTypes then Text(ContentTypes[ext])
    else if ext in InheritedNames then InheritedMember(ext)
    else Text(OctetStream)
  }

  /** Any file named "<stem>.constructor" gets a function back, not a MIME
      type. */
  lemma InheritedNameEscapesTable(stem: string)
    ensures ContentTypeAsWritten(stem + ".constructor") == InheritedMember("constructor")
  {
    assert stem + ".constructor" == stem + "." + "constructor";
    ExtensionOfJoin(stem, "constructor");
    ToLowerOfLowerCase("constructor");
  }

  /** `getContentType` as intended: only the table's own entries count. */
  function GetContentType(filename: string): (r: string)
    ensures r == OctetStream || r in ContentTypes.Values
    ensures r != OctetStream <==> Extension(filename) in ContentTypes
    ensures Extension(filename) in ContentTypes ==> r == ContentTypes[Extension(filename)]
  {
    var ext := Extension(filename);
    if ext in ContentTypes then ContentTypes[ext] else OctetStream
  }

  /** The lookup sees only the extension. */
  lemma SameExtensionSameContentType(a: string, b: string)
    requires Extension(a) == Extension(b)
    ensures GetContentType(a) == GetContentType(b)
  {
  }

  /** A name ending in ".<ext>" gets the table's entry for `ext`, in any
      letter case. */
  lemma ContentTypeOfKnownExtension(stem: string, ext: string)
    requires '.' !in ext && ToLower(ext) in ContentTypes
    ensures GetContentType(stem + "." + ext) == ContentTypes[ToLower(ext)]
  {
    ExtensionOfJoin(stem, ext);
  }

  /** Every type the lookup can name passes one of the upload allow-lists. */
  lemma ContentTypeIsUploadable(filename: string)
    requires GetContentType(filename) != OctetStream
    ensures GetContentType(filename) in ImageTypes || GetContentType(filename) in AudioTypes
  {
  }

  /** Appending ".<ext>" to any name makes `ext`, lower-cased, its extension. */
  lemma ExtensionOfJoin(stem: string, ext: string)
    requires '.' !in ext
    ensures Extension(stem + "." + ext) == ToLower(ext)
  {
    assert stem + "." + ext == stem + ['.'] + ext;
    AfterLastOfJoin(stem, '.', ext);
  }

  lemma ToLowerOfLowerCase(s: string)
    requires forall i :: 0 <= i < |s| ==> !('A' <= s[i] <= 'Z')
    ensures ToLower(s) == s
  {
  }

  /** A name without a '.' is its own extension, in any letter case. */
  lemma BareNameIsExtension()
    ensures GetContentType("PNG") == "image/png"
  {
    assert '.' !in "PNG" && "PNG" == "PNG"[0..];
    AfterLastUnique("PNG", '.', "PNG");
    var lower := ToLower("PNG");
    assert lower[0] == 'p' && lower[1] == 'n' && lower[2] == 'g';
    assert lower == "png";
    assert Extension("PNG") == "png";
  }

  /** A trailing '.' leaves an empty extension, which the table lacks. */
  lemma TrailingDotIsUnknown()
    ensures GetContentType("photo.") == OctetStream
  {
    ExtensionOfJoin("photo", "");
    assert "photo." == "photo" + "." + "";
  }

  /** Only the text after the last '.' counts, in any letter case. */
  lemma LastDotDecides()
    ensures GetContentType("mix.final.WAV") == "audio/wav"
  {
    ExtensionOfJoin("mix.final", "WAV");
    assert "mix.final.WAV" == "mix.final" + "." + "WAV";
    assert ToLower("WAV") == "wav";
  }

  /** The lookup does not depend on the letter case of the name. */
  lemma ContentTypeIgnoresCase(filename: string)
    ensures GetContentType(ToLower(filename)) == GetContentType(filename)
  {
    AfterLastOfLower(filename);
    ToLowerIdempotent(AfterLast(filename, '.'));
  }

  /** Lower-casing and taking the text after the last '.' commute. */
  lemma AfterLastOfLower(s: string)
    ensures AfterLast(ToLower(s), '.') == ToLower(AfterLast(s, '.'))
  {
    var r := ToLower(AfterLast(s, '.'));
    var t := ToLower(s);
    var k := |AfterLast(s, '.')|;
    assert r == t[|t| - k..];
    assert '.' !in r by {
      forall i | 0 <= i < |r|
        ensures r[i] != '.'
      {
        assert AfterLast(s, '.')[i] != '.';
      }
    }
    AfterLastUnique(t, '.', r);
  }

  /** The suffix after the last separator is the only suffix that holds no
      separator and is either the whole string or preceded by one. */
  lemma AfterLastUnique(s: string, sep: char, r: string)
    requires sep !in r && |r| <= |s| && r == s[|s| - |r|..]
    requires |r| < |s| ==> s[|s| - |r| - 1] == sep
    ensures AfterLast(s, sep) == r
  {
  }
}
