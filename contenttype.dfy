/** Extension extraction and content-type choice for a resolved storage key
    (getFileExtensionFromUrl and getContentTypeForExt). */
module ContentType {
  import opened Wrappers

  const DefaultType := "application/octet-stream"

  /** The system services the inference leans on: the path component that
      url.Parse yields for a raw string (None when it refuses it), and the MIME
      registry behind mime.TypeByExtension, keyed by ".ext". A key missing from
      the registry reads as "", as the Go function returns. */
  datatype Registry = Registry(urlPath: string -> Option<string>, types: map<string, string>)

  datatype ExtError = BadUrl | NoPeriod

  function TypeByExtension(reg: Registry, dotExt: string): (t: string)
    ensures t == "" <==> dotExt !in reg.types || reg.types[dotExt] == ""
  {
    if dotExt in reg.types then reg.types[dotExt] else ""
  }

  /** strings.LastIndex for one character: the last position of c in s, or -1. */
  function LastIndex(s: string, c: char): (r: int)
    ensures -1 <= r < |s|
    ensures r == -1 <==> c !in s
    ensures 0 <= r ==> s[r] == c && c !in s[r + 1..]
  {
    if s == [] then -1
    else if s[|s| - 1] == c then |s| - 1
    else
      assert s == s[..|s| - 1] + [s[|s| - 1]];
      LastIndex(s[..|s| - 1], c)
  }

  /** The text after the last '.' of a path, anywhere in the path (so a '/' may
      follow the period); None when the path has no '.'. */
  function Extension(path: string): (r: Option<string>)
    ensures r.None? <==> '.' !in path
    ensures r.Some? ==>
      '.' !in r.value && |r.value| < |path| &&
      path == path[..|path| - |r.value| - 1] + "." + r.value
  {
    var pos := LastIndex(path, '.');
    if pos == -1 then None
    else
      assert path == path[..pos] + "." + path[pos + 1..];
      Some(path[pos + 1..])
  }

  /** getFileExtensionFromUrl: parse, then take the extension of the parsed path. */
  function FileExtension(rawUrl: string, reg: Registry): (r: Result<string, ExtError>)
    ensures reg.urlPath(rawUrl).None? ==> r == Failure(BadUrl)
    ensures reg.urlPath(rawUrl).Some? ==>
      (r.Success? <==> '.' in reg.urlPath(rawUrl).value) &&
      (r.Failure? ==> r == Failure(NoPeriod))
    ensures r.Success? ==> reg.urlPath(rawUrl).Some? && Extension(reg.urlPath(rawUrl).value) == Some(r.value)
  {
    match reg.urlPath(rawUrl)
    case None => Failure(BadUrl)
    case Some(path) =>
      match Extension(path)
      case None => Failure(NoPeriod)
      case Some(ext) => Success(ext)
  }

  /** getContentTypeForExt: never empty; the registry's entry for the key's
      extension when there is a non-empty one, the default type otherwise. */
  function ContentTypeFor(key: string, reg: Registry): (t: string)
    ensures t != ""
    ensures t == DefaultType || t in reg.types.Values
  {
    match FileExtension(key, reg)
    case Failure(_) => DefaultType
    case Success(ext) =>
      var mimeType := TypeByExtension(reg, "." + ext);
      if mimeType == "" then DefaultType else mimeType
  }

  /** The search for the period runs over the whole path, not just its last segment. */
  lemma ExtensionSpansSegments()
    ensures Extension("/a.b/c") == Some("b/c")
  {
    var p := "/a.b/c";
    assert p[2] == '.' && '.' !in p[3..];
    assert LastIndex(p, '.') == 2;
  }

  /** A key whose parsed path ends in ".ext" gets the registry's entry for
      ".ext" when there is a non-empty one, and the default type otherwise. */
  lemma RegistryEntryUsed(key: string, reg: Registry, path: string, ext: string)
    requires reg.urlPath(key) == Some(path)
    requires '.' !in ext && |ext| < |path| && path == path[..|path| - |ext| - 1] + "." + ext
    ensures "." + ext in reg.types && reg.types["." + ext] != "" ==>
      ContentTypeFor(key, reg) == reg.types["." + ext]
    ensures ("." + ext !in reg.types || reg.types["." + ext] == "") ==>
      ContentTypeFor(key, reg) == DefaultType
  {
    var pos := |path| - |ext| - 1;
    assert path[pos] == '.';
    assert path[pos + 1..] == ext;
    assert LastIndex(path, '.') == pos;
  }

  /** A parsed path with no period, or a key url.Parse refuses, yields the default type. */
  lemma NoPeriodDefault(key: string, reg: Registry)
    requires reg.urlPath(key).None? || '.' !in reg.urlPath(key).value
    ensures ContentTypeFor(key, reg) == DefaultType
  {
  }
}
