/** The upload route (`POST /upload`): a guard chain over the session cookie,
    the form's `file` and `type` fields, the MIME type and the image size,
    then a write under `<type>s/<Date.now()>-<random>.<ext>`. `Date.now()` is
    the parameter `now`; the base-36 random text is the parameter `suffix`. */
module Upload {
  import opened Common
  import opened Blob

  /** The form fields the route reads. */
  datatype Form = Form(file: Option<File>, kind: Option<string>)

  /** `{url}` after the write, or `{error}` with a status. */
  datatype Response = Uploaded(put: Put) | Refused(status: int, error: string)

  const UnauthorizedError := "Unauthorized"
  const NoFileError := "No file provided"
  const RouteImageTypeError := "Invalid image type. Allowed: jpg, png, webp"
  const RouteImageSizeError := "Image too large. Max size: 5MB"
  const RouteAudioTypeError := "Invalid audio type. Allowed: mp3, aiff, wav"
  const InvalidKindError := "Invalid upload type"

  /** `${type}s/${Date.now()}-${random}.${ext}`, where `ext` is the text after
      the file name's last '.' (its letter case kept). */
  function StoredName(kind: string, now: nat, suffix: string, file: File): string {
    kind + "s/" + NatToDecimal(now) + "-" + suffix + "." + AfterLast(file.name, '.')
  }

  function Decide(accessToken: Option<string>, form: Form, now: nat, suffix: string): (r: Response)
    ensures !Present(accessToken) ==> r == Refused(401, UnauthorizedError)
    ensures Present(accessToken) && form.file.None? ==> r == Refused(400, NoFileError)
    ensures Present(accessToken) && form.file.Some? && form.kind != Some("image") && form.kind != Some("audio") ==>
              r == Refused(400, InvalidKindError)
    ensures Present(accessToken) && form.file.Some? && form.kind == Some("image")
            && form.file.value.mimeType !in ImageTypes ==>
              r == Refused(400, RouteImageTypeError)
    ensures Present(accessToken) && form.file.Some? && form.kind == Some("image")
            && form.file.value.mimeType in ImageTypes && form.file.value.size > MaxImageSize ==>
              r == Refused(400, RouteImageSizeError)
    ensures Present(accessToken) && form.file.Some? && form.kind == Some("audio")
            && form.file.value.mimeType !in AudioTypes ==>
              r == Refused(400, RouteAudioTypeError)
    ensures r.Refused? ==> r.status in {400, 401}
    ensures r.Refused? && r.status == 401 <==> !Present(accessToken)
    ensures r.Uploaded? <==>
              && Present(accessToken) && form.file.Some?
              && (|| (form.kind == Some("image") && form.file.value.mimeType in ImageTypes
                      && form.file.value.size <= MaxImageSize)
                  || (form.kind == Some("audio") && form.file.value.mimeType in AudioTypes))
    ensures r.Uploaded? ==>
              r.put == Put(StoredName(form.kind.value, now, suffix, form.file.value), form.file.value.mimeType)
  {
    if !Present(accessToken) then Refused(401, UnauthorizedError)
    else if form.file.None? then Refused(400, NoFileError)
    else
      var file := form.file.value;
      if form.kind == Some("image") && file.mimeType !in ImageTypes then Refused(400, RouteImageTypeError)
      else if form.kind == Some("image") && file.size > MaxImageSize then Refused(400, RouteImageSizeError)
      else if form.kind == Some("audio") && file.mimeType !in AudioTypes then Refused(400, RouteAudioTypeError)
      else if form.kind != Some("image") && form.kind != Some("audio") then Refused(400, InvalidKindError)
      else Uploaded(Put(StoredName(form.kind.value, now, suffix, file), file.mimeType))
  }

  /** The route accepts exactly the files the blob helpers accept: images by
      `uploadImage`'s type and size guard, audio by `uploadAudio`'s type guard.
      The size message is the helper's; the type messages name extensions
      where the helper's image message names MIME types. */
  lemma RouteAgreesWithHelpers(token: string, file: File, now: nat, suffix: string)
    requires token != ""
    ensures (Decide(Some(token), Form(Some(file), Some("image")), now, suffix).Uploaded?
             <==> UploadImage(file, now).Ok?)
    ensures (Decide(Some(token), Form(Some(file), Some("audio")), now, suffix).Uploaded?
             <==> UploadAudio(file, now).Ok?)
    ensures file.mimeType in ImageTypes && file.size > MaxImageSize ==>
              Decide(Some(token), Form(Some(file), Some("image")), now, suffix) == Refused(400, UploadImage(file, now).message)
    ensures file.mimeType !in AudioTypes ==>
              Decide(Some(token), Form(Some(file), Some("audio")), now, suffix) == Refused(400, UploadAudio(file, now).message)
  {
    ImageCapIsFiveMegabytes(file.name, "image/png");
  }

  /** Without the session cookie nothing else is looked at. */
  lemma UnauthorizedFirst(form: Form, now: nat, suffix: string)
    ensures Decide(None, form, now, suffix) == Refused(401, UnauthorizedError)
    ensures Decide(Some(""), form, now, suffix) == Refused(401, UnauthorizedError)
  {
  }

  /** The stored name sits under `<type>s/` and keeps the original name's
      extension, so it is served with the same content type. */
  lemma StoredNameKeepsExtension(token: Option<string>, form: Form, now: nat, suffix: string)
    requires Decide(token, form, now, suffix).Uploaded?
    ensures var path := Decide(token, form, now, suffix).put.path;
            var prefix := form.kind.value + "s/";
            && |prefix| <= |path| && path[..|prefix|] == prefix
            && AfterLast(path, '.') == AfterLast(form.file.value.name, '.')
            && GetContentType(path) == GetContentType(form.file.value.name)
  {
    var file, kind := form.file.value, form.kind.value;
    var path := Decide(token, form, now, suffix).put.path;
    assert path == StoredName(kind, now, suffix, file);
    StoredNameShape(kind, now, suffix, file);
    SameExtensionSameContentType(path, file.name);
  }

  lemma StoredNameShape(kind: string, now: nat, suffix: string, file: File)
    ensures var path := StoredName(kind, now, suffix, file);
            && |kind + "s/"| <= |path| && path[..|kind + "s/"|] == kind + "s/"
            && AfterLast(path, '.') == AfterLast(file.name, '.')
            && Extension(path) == Extension(file.name)
  {
    var ext := AfterLast(file.name, '.');
    var stem := kind + "s/" + NatToDecimal(now) + "-" + suffix;
    var path := StoredName(kind, now, suffix, file);
    assert path == stem + ['.'] + ext;
    assert path[..|kind + "s/"|] == kind + "s/";
    AfterLastOfJoin(stem, '.', ext);
  }
}
