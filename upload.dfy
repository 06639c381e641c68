/** Image upload naming, `api/upload/index.js`: the extension check, the
    sanitised file name, the storage path and the content type of an
    uploaded image. */
module Upload {
  import opened Base
  import opened Text
  import opened Http

  /** `file.originalFilename || "image"`. */
  function OriginalName(given: Option<string>): (r: string)
    ensures r != []
    ensures given.Some? && given.value != "" ==> r == given.value
  {
    if given.Some? && given.value != "" then given.value else "image"
  }

  /** `name.split(".").pop()`: the text after the last ".", or the whole
      name when it has no ".". */
  function AfterLastDot(name: string): (r: string)
    ensures |r| <= |name| && r == name[|name| - |r|..]
    ensures '.' !in r
    ensures |r| < |name| ==> name[|name| - |r| - 1] == '.'
  {
    if name == [] then []
    else if name[|name| - 1] == '.' then []
    else AfterLastDot(name[..|name| - 1]) + [name[|name| - 1]]
  }

  /** The extension of `stem.ext` is `ext` whenever `ext` has no dot, however
      many dots the stem has. */
  lemma {:induction false} AfterLastDotOfJoin(stem: string, ext: string)
    requires '.' !in ext
    ensures AfterLastDot(stem + "." + ext) == ext
    decreases |ext|
  {
    var name := stem + "." + ext;
    if ext == [] {
      assert name[|name| - 1] == '.';
    } else {
      var e := ext[..|ext| - 1];
      assert name[..|name| - 1] == stem + "." + e;
      assert name[|name| - 1] == ext[|ext| - 1];
      AfterLastDotOfJoin(stem, e);
      assert e + [ext[|ext| - 1]] == ext;
    }
  }

  /** A name without a dot is its own last segment. */
  lemma {:induction false} AfterLastDotOfDotless(name: string)
    requires forall i :: 0 <= i < |name| ==> name[i] != '.'
    ensures AfterLastDot(name) == name
  {
    if name != [] {
      var p := name[..|name| - 1];
      AfterLastDotOfDotless(p);
      assert AfterLastDot(name) == AfterLastDot(p) + [name[|name| - 1]];
      assert p + [name[|name| - 1]] == name;
    }
  }

  /** The file type, lower-cased. */
  function Extension(name: string): string
  {
    ToLowerAscii(AfterLastDot(name))
  }

  predicate Allowed(ext: string)
  {
    ext in ["jpg", "jpeg", "png", "gif"]
  }

  /** `name.replace(/[^a-zA-Z0-9]/g, "_")`. */
  function SafeFilename(name: string): (r: string)
    ensures |r| == |name|
    ensures forall i :: 0 <= i < |name| ==> (IsAsciiAlnum(name[i]) ==> r[i] == name[i])
    ensures forall i :: 0 <= i < |name| ==> (!IsAsciiAlnum(name[i]) ==> r[i] == '_')
  {
    seq(|name|, i requires 0 <= i < |name| => if IsAsciiAlnum(name[i]) then name[i] else '_')
  }

  /** A sanitised name is made of ASCII letters, digits and "_" only, and
      sanitising it again changes nothing. */
  lemma SafeFilenameIsSafe(name: string)
    ensures forall i :: 0 <= i < |SafeFilename(name)| ==>
              IsAsciiAlnum(SafeFilename(name)[i]) || SafeFilename(name)[i] == '_'
    ensures SafeFilename(SafeFilename(name)) == SafeFilename(name)
  {
    var s := SafeFilename(name);
    assert forall i :: 0 <= i < |s| ==> SafeFilename(s)[i] == s[i];
  }

  /** `challenges/${timestamp}-${safeFilename}`. */
  function StoragePath(timestamp: nat, name: string): (r: string)
    ensures r == "challenges/" + NatToString(timestamp) + "-" + SafeFilename(name)
    ensures |r| == 12 + |NatToString(timestamp)| + |name|
  {
    "challenges/" + NatToString(timestamp) + "-" + SafeFilename(name)
  }

  /** The timestamp and the sanitised name can be read back from a path:
      the digits up to the first "-" after the folder, then the rest. */
  lemma StoragePathReadsBack(timestamp: nat, name: string)
    ensures var p := StoragePath(timestamp, name);
            var k := 11 + |NatToString(timestamp)|;
            && p[..11] == "challenges/"
            && p[11..k] == NatToString(timestamp)
            && p[k] == '-'
            && p[k + 1..] == SafeFilename(name)
            && '-' !in p[11..k]
  {
    var t := NatToString(timestamp);
    var p := StoragePath(timestamp, name);
    assert p == "challenges/" + t + "-" + SafeFilename(name);
    assert p[11..11 + |t|] == t;
  }

  /** `image/${ext === "jpg" ? "jpeg" : ext}`. */
  function ContentType(ext: string): (r: string)
    ensures ext == "jpg" ==> r == "image/jpeg"
    ensures ext != "jpg" ==> r == "image/" + ext
  {
    "image/" + (if ext == "jpg" then "jpeg" else ext)
  }

  /** Every accepted file is stored as one of three image types. */
  lemma AcceptedContentTypes(ext: string)
    requires Allowed(ext)
    ensures ContentType(ext) in ["image/jpeg", "image/png", "image/gif"]
  {
    if ext == "jpeg" {
      assert "image/" + "jpeg" == "image/jpeg";
    } else if ext == "png" {
      assert "image/" + "png" == "image/png";
    } else if ext == "gif" {
      assert "image/" + "gif" == "image/gif";
    }
  }

  /** What the form parser gives for the `file` field. */
  datatype FormFile = NoFile | File(originalName: Option<string>)

  /** The reply: preflight, an error status, or the stored object's path
      and content type (the public URL is derived from the path). */
  datatype UploadReply = Preflight | Status(code: int) | Stored(path: string, contentType: string)

  /** The handler. `parsed` is the form parser's result (None when it
      rejects), `timestamp` is `Date.now()` and `uploadOk` whether the
      storage upload succeeded. */
  function Respond(req: Request, parsed: Option<FormFile>, timestamp: nat, uploadOk: bool): (r: UploadReply)
    ensures req.verb == "OPTIONS" ==> r == Preflight
    ensures req.verb != "OPTIONS" && req.verb != "POST" ==> r == Status(METHOD_NOT_ALLOWED)
    ensures req.verb == "POST" && parsed.None? ==> r == Status(SERVER_ERROR)
    ensures req.verb == "POST" && parsed == Some(NoFile) ==> r == Status(BAD_REQUEST)
    ensures r.Stored? <==>
              && req.verb == "POST" && parsed.Some? && parsed.value.File? && uploadOk
              && Allowed(Extension(OriginalName(parsed.value.originalName)))
    ensures r.Stored? ==>
              var name := OriginalName(parsed.value.originalName);
              r == Stored(StoragePath(timestamp, name), ContentType(Extension(name)))
  {
    if req.verb == "OPTIONS" then Preflight
    else if req.verb != "POST" then Status(METHOD_NOT_ALLOWED)
    else if parsed.None? then Status(SERVER_ERROR)
    else match parsed.value
      case NoFile => Status(BAD_REQUEST)
      case File(given) =>
        var name := OriginalName(given);
        var ext := Extension(name);
        if !Allowed(ext) then Status(BAD_REQUEST)
        else if !uploadOk then Status(SERVER_ERROR)
        else Stored(StoragePath(timestamp, name), ContentType(ext))
  }

  /** A file with a disallowed type is refused with 400 and nothing is
      stored, whatever the storage would have answered. */
  lemma DisallowedTypeRefused(req: Request, given: Option<string>, timestamp: nat, uploadOk: bool)
    requires req.verb == "POST"
    requires !Allowed(Extension(OriginalName(given)))
    ensures Respond(req, Some(File(given)), timestamp, uploadOk) == Status(BAD_REQUEST)
  {
  }

  /** A file without a name is stored as "image", which has no allowed
      extension, so it is refused. */
  lemma UnnamedFileRefused(req: Request, timestamp: nat, uploadOk: bool)
    requires req.verb == "POST"
    ensures Respond(req, Some(File(None)), timestamp, uploadOk) == Status(BAD_REQUEST)
  {
    ImageIsNotAllowed();
    DisallowedTypeRefused(req, None, timestamp, uploadOk);
  }

  /** The default name "image" has no dot, so its whole text is its type,
      which is not on the allow-list. */
  lemma ImageIsNotAllowed()
    ensures !Allowed(Extension(OriginalName(None)))
  {
    var n := "image";
    assert OriginalName(None) == n;
    assert forall i :: 0 <= i < |n| ==> n[i] != '.';
    AfterLastDotOfDotless(n);
    assert |Extension(n)| == 5;
  }
}
