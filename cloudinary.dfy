/**
 * The media service: the guard in front of an upload, the public-id extraction used when a
 * post is deleted, and the guard in front of a destroy call. The Cloudinary API itself is an
 * oracle: `upload(file)` answers with the secure URL or an IOException.
 */
module Cloudinary {
  import opened Wrappers
  import opened JavaStrings
  import opened Model

  /** A multipart upload; only its size matters to the code modelled. */
  datatype File = File(filename: string, size: nat)

  predicate IsEmptyFile(f: File) {
    f.size == 0
  }

  /** uploadFile: an empty file is refused before any call; otherwise the upload's own result. */
  function UploadFile(f: File, upload: File -> Result<string, Exn>): (r: Result<string, Exn>)
    ensures IsEmptyFile(f) ==> r == Err(IllegalArgument("Cannot upload empty file."))
    ensures !IsEmptyFile(f) ==> r == upload(f)
  {
    if IsEmptyFile(f) then Err(IllegalArgument("Cannot upload empty file.")) else upload(f)
  }

  /**
   * extractPublicIdFromUrl: the text strictly between the last '/' and the last '.', when both
   * occur and the dot comes after the slash; None (null) otherwise, and for a null or empty URL.
   */
  function ExtractPublicId(url: Option<string>): (r: Option<string>)
    ensures url.None? || url.value == "" ==> r.None?
    ensures r.Some? ==> '/' !in r.value
    ensures r.Some? <==> url.Some? && '/' in url.value && '.' in url.value
                         && LastIndexOf(url.value, '.') > LastIndexOf(url.value, '/')
    ensures r.Some? ==> url.value == url.value[..LastIndexOf(url.value, '/')] + "/" + r.value + "."
                                     + url.value[LastIndexOf(url.value, '.') + 1..]
  {
    if url.None? || url.value == "" then None
    else
      var s := url.value;
      var lastSlash := LastIndexOf(s, '/');
      var lastDot := LastIndexOf(s, '.');
      if lastSlash != -1 && lastDot != -1 && lastDot > lastSlash then
        assert s[lastSlash + 1..lastDot] == s[lastSlash + 1..][..lastDot - lastSlash - 1];
        assert s == s[..lastSlash] + "/" + s[lastSlash + 1..lastDot] + "." + s[lastDot + 1..];
        Some(s[lastSlash + 1..lastDot])
      else None
  }

  lemma LastDotOf(prefix: string, id: string, ext: string)
    requires '.' !in ext
    ensures LastIndexOf(prefix + "/" + id + "." + ext, '.') == |prefix| + 1 + |id|
  {
    var b := prefix + "/" + id;
    LastIndexOfConcat(b + ".", ext, '.');
    LastIndexOfSnoc(b, '.', '.');
  }

  lemma LastSlashOf(prefix: string, id: string, ext: string)
    requires '/' !in id && '/' !in ext
    ensures LastIndexOf(prefix + "/" + id + "." + ext, '/') == |prefix|
  {
    var c := prefix + "/";
    var b := c + id;
    LastIndexOfConcat(b + ".", ext, '/');
    LastIndexOfSnoc(b, '.', '/');
    LastIndexOfConcat(c, id, '/');
    LastIndexOfSnoc(prefix, '/', '/');
  }

  /**
   * A URL ending in "/<id>.<ext>", where neither part holds a '/' and the extension holds no
   * '.', yields exactly <id> (which may itself contain dots).
   */
  lemma ExtractPublicIdOf(prefix: string, id: string, ext: string)
    requires '/' !in id && '/' !in ext && '.' !in ext
    ensures ExtractPublicId(Some(prefix + "/" + id + "." + ext)) == Some(id)
  {
    var s := prefix + "/" + id + "." + ext;
    var slash, dot := |prefix|, |prefix| + 1 + |id|;
    LastDotOf(prefix, id, ext);
    LastSlashOf(prefix, id, ext);
    assert LastIndexOf(s, '/') == slash && LastIndexOf(s, '.') == dot;
    assert s != "" && slash < dot;
    assert s[slash + 1..dot] == id;
  }

  /** When the dot comes right after the slash the id is the empty string. */
  lemma EmptyIdBeforeDot(prefix: string, ext: string)
    requires '/' !in ext && '.' !in ext
    ensures ExtractPublicId(Some(prefix + "/." + ext)) == Some("")
  {
    assert prefix + "/." + ext == prefix + "/" + "" + "." + ext;
    ExtractPublicIdOf(prefix, "", ext);
  }

  /** A dot only before the last slash (a dotted host, no extension) gives None. */
  lemma NoExtensionGivesNone(prefix: string, name: string)
    requires '/' !in name && '.' !in name
    ensures ExtractPublicId(Some(prefix + "/" + name)) == None
  {
    var s := prefix + "/" + name;
    LastIndexOfConcat(prefix + "/", name, '.');
    LastIndexOfConcat(prefix + "/", name, '/');
    LastIndexOfConcat(prefix, "/", '/');
    LastIndexOfConcat(prefix, "/", '.');
  }

  /**
   * deleteFileByUrl: the public id handed to destroy, if destroy is called at all; it is called
   * only for a non-null, non-empty id. An IOException from destroy is swallowed, so the call
   * never fails from the caller's point of view.
   */
  function DestroyedId(url: string): (r: Option<string>)
    ensures r.Some? ==> r.value != "" && ExtractPublicId(Some(url)) == r
    ensures r.None? ==> ExtractPublicId(Some(url)).None? || ExtractPublicId(Some(url)) == Some("")
  {
    match ExtractPublicId(Some(url))
    case Some(id) => if id != "" then Some(id) else None
    case None => None
  }
}
