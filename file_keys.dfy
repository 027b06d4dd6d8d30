/**
 * The pure parts of the backend's file service: the evidence upload check,
 * the object key an upload is stored under, and the key a delete recovers
 * from a stored file URL. The storage calls themselves are not modelled.
 */
module FileKeys {
  import opened Wrappers
  import opened Text

  /** The largest accepted upload, 5 MiB. */
  const MaxSize: int := 5 * 1024 * 1024

  /** The MIME types accepted for evidence uploads. */
  const AllowedTypes: seq<string> := ["image/jpeg", "image/png", "image/jpg", "application/pdf"]

  const SizeError: string := "File size exceeds 5MB limit"
  const TypeError: string := "Invalid file type. Only JPG, PNG, and PDF allowed"

  /** The folder an upload goes to when the caller names none. */
  const DefaultFolder: string := "evidence"

  /** The text after the host in a stored URL; the delete key follows it. */
  const HostEnd: string := ".com/"

  /** The fields of an uploaded file the service reads. */
  datatype UploadedFile = UploadedFile(originalName: string, mimeType: string, size: int)

  /** `{ valid, error? }` as returned by `validateFile`. */
  datatype FileCheck = FileCheck(valid: bool, error: Option<string>)

  /**
   * `validateFile`: the size limit is checked first, then the type; an
   * accepted file carries no error.
   */
  function ValidateFile(file: UploadedFile): (r: FileCheck)
    ensures r.valid <==> file.size <= MaxSize && file.mimeType in AllowedTypes
    ensures r.valid <==> r.error.None?
    ensures file.size > MaxSize ==> r.error == Some(SizeError)
    ensures file.size <= MaxSize && file.mimeType !in AllowedTypes ==> r.error == Some(TypeError)
  {
    if file.size > MaxSize then FileCheck(false, Some(SizeError))
    else if file.mimeType !in AllowedTypes then FileCheck(false, Some(TypeError))
    else FileCheck(true, None)
  }

  /** A file of exactly 5 MiB passes the size check; one byte more does not, whatever its type. */
  lemma SizeLimitInclusive(name: string, mimeType: string)
    ensures ValidateFile(UploadedFile(name, mimeType, 5242880)).error != Some(SizeError)
    ensures ValidateFile(UploadedFile(name, "application/pdf", 5242880)).valid
    ensures ValidateFile(UploadedFile(name, mimeType, 5242881)) == FileCheck(false, Some(SizeError))
  {
  }

  /** An oversized file is reported as oversized even when its type is also refused. */
  lemma SizeReportedBeforeType(file: UploadedFile)
    requires file.size > MaxSize && file.mimeType !in AllowedTypes
    ensures ValidateFile(file).error == Some(SizeError)
  {
  }

  /** Exactly the JPEG, PNG and PDF types pass the type check. */
  lemma AcceptedTypes(name: string, mimeType: string, size: int)
    requires size <= MaxSize
    ensures ValidateFile(UploadedFile(name, mimeType, size)).valid <==>
      mimeType == "image/jpeg" || mimeType == "image/png" || mimeType == "image/jpg"
      || mimeType == "application/pdf"
  {
  }

  /**
   * `name.split('.').pop()`: the text after the last dot, or the whole name
   * when it has none.
   */
  function Extension(name: string): (ext: string)
    ensures '.' !in ext
    ensures '.' !in name ==> ext == name
  {
    var pieces := Split(name, ".");
    SplitPiecesFree(name, ".");
    ContainsChar(pieces[|pieces| - 1], '.');
    ContainsChar(name, '.');
    pieces[|pieces| - 1]
  }

  /** The extension of `base.ext` is `ext` whenever `ext` holds no dot. */
  lemma ExtensionAfterLastDot(base: string, ext: string)
    requires '.' !in ext
    ensures Extension(base + "." + ext) == ext
  {
    SplitLastPiece(base, '.', ext);
  }

  /** Splitting on dots and joining again gives the name back, so the extension ends it. */
  lemma NameEndsWithExtension(name: string)
    ensures Join(Split(name, "."), ".") == name
    ensures |Extension(name)| <= |name| && name[|name| - |Extension(name)|..] == Extension(name)
  {
    var pieces := Split(name, ".");
    assert Extension(name) == pieces[|pieces| - 1];
    SplitJoin(name, ".");
    JoinEndsWithLast(pieces, ".");
  }

  /** A join ends with its last piece. */
  lemma {:induction false} JoinEndsWithLast(pieces: seq<string>, sep: string)
    requires |pieces| >= 1
    ensures var j := Join(pieces, sep); var last := pieces[|pieces| - 1];
      |last| <= |j| && j[|j| - |last|..] == last
  {
    if |pieces| > 1 {
      JoinEndsWithLast(pieces[1..], sep);
      var rest := Join(pieces[1..], sep);
      assert Join(pieces, sep) == pieces[0] + sep + rest;
    }
  }

  /**
   * The key `uploadFile` stores an object under:
   * `<folder>/<uuid>.<extension of the original name>`, with the folder
   * `evidence` when the caller gives none. The uuid is a parameter.
   */
  function UploadKey(folder: Option<string>, id: string, originalName: string): (key: string)
    ensures Extension(key) == Extension(originalName)
    ensures folder.None? ==> IsPrefix(DefaultFolder + "/", key)
  {
    var key := folder.GetOr(DefaultFolder) + "/" + id + "." + Extension(originalName);
    ExtensionAfterLastDot(folder.GetOr(DefaultFolder) + "/" + id, Extension(originalName));
    key
  }

  /**
   * `fileUrl.split('.com/')[1]`: the text between the first and the second
   * `.com/`, or `None` where JavaScript yields `undefined`.
   */
  function DeleteKey(url: string): (key: Option<string>)
    ensures key.Some? <==> Contains(url, HostEnd)
    ensures key.Some? ==> !Contains(key.value, HostEnd)
  {
    var pieces := Split(url, HostEnd);
    SplitPiecesFree(url, HostEnd);
    if |pieces| >= 2 then Some(pieces[1]) else None
  }

  /** `/`, the last character of `.com/`, occurs nowhere earlier in it. */
  lemma HostEndLastCharUnique()
    ensures forall t :: 0 <= t < |HostEnd| - 1 ==> HostEnd[t] != HostEnd[|HostEnd| - 1]
  {
  }

  /**
   * A URL made of a host part without `.com/`, then `.com/`, then a key
   * without `.com/`, gives back exactly that key.
   */
  lemma DeleteKeyOfUrl(host: string, key: string)
    requires !Contains(host, HostEnd) && !Contains(key, HostEnd)
    ensures DeleteKey(host + HostEnd + key) == Some(key)
  {
    HostEndLastCharUnique();
    SplitAfterHead(host, HostEnd, key);
  }

  /** Whatever follows a second `.com/` is cut off the key. */
  lemma DeleteKeyStopsAtSecondHostEnd(host: string, key: string, tail: string)
    requires !Contains(host, HostEnd) && !Contains(key, HostEnd)
    ensures DeleteKey(host + HostEnd + key + HostEnd + tail) == Some(key)
  {
    HostEndLastCharUnique();
    var after := key + HostEnd + tail;
    assert host + HostEnd + key + HostEnd + tail == host + HostEnd + after;
    SplitAfterHead(host, HostEnd, after);
    SplitAfterHead(key, HostEnd, tail);
    assert Split(host + HostEnd + after, HostEnd)[1] == key;
  }

  /** Where each character of `prefix.ext` comes from. */
  lemma DottedCharAt(prefix: string, ext: string, i: nat)
    requires i < |prefix + "." + ext|
    ensures i < |prefix| ==> (prefix + "." + ext)[i] == prefix[i]
    ensures i > |prefix| ==> (prefix + "." + ext)[i] == ext[i - |prefix| - 1]
  {
  }

  /**
   * `prefix.ext` holds no `.com/` when the only dot is the one before `ext`
   * and `ext` holds no slash.
   */
  lemma NoHostEndInDotted(prefix: string, ext: string)
    requires '.' !in prefix && '.' !in ext && '/' !in ext
    ensures !Contains(prefix + "." + ext, HostEnd)
  {
    var key := prefix + "." + ext;
    forall j | 0 <= j <= |key|
      ensures !IsPrefix(HostEnd, key[j..])
    {
      if j + |HostEnd| <= |key| {
        DottedCharAt(prefix, ext, j);
        DottedCharAt(prefix, ext, j + 4);
        assert key[j..][0] == key[j] && key[j..][4] == key[j + 4];
      }
    }
    AbsentEverywhere(key, HostEnd);
  }

  /**
   * The key an upload is stored under is the key a delete recovers from the
   * stored URL, provided the folder and the uuid hold no dot and the
   * extension no slash (a uuid is hex digits and dashes).
   */
  lemma UploadedObjectIsDeletable(host: string, folder: Option<string>, id: string, originalName: string)
    requires !Contains(host, HostEnd)
    requires '.' !in folder.GetOr(DefaultFolder) && '.' !in id && '/' !in Extension(originalName)
    ensures DeleteKey(host + HostEnd + UploadKey(folder, id, originalName)) == Some(UploadKey(folder, id, originalName))
  {
    var prefix := folder.GetOr(DefaultFolder) + "/" + id;
    assert '.' !in prefix;
    NoHostEndInDotted(prefix, Extension(originalName));
    DeleteKeyOfUrl(host, UploadKey(folder, id, originalName));
  }
}
