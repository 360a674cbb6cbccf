/**
 * The web server's own responses: the index page and other files read from the static
 * directory, labelled by extension, and the 404 fallback for unmatched routes.
 *
 * Reading a file is a parameter: its bytes, or a failure.
 */
module Server {
  import opened Common
  import opened Http

  /** The directory the application state serves static files from. */
  const StaticDir: string := "/app/static"

  /** The index page's path. */
  function IndexPath(staticDir: string): (r: string)
    ensures StartsWith(r, staticDir) && EndsWith(r, "/index.html")
  {
    staticDir + "/index.html"
  }

  /** The text after the last occurrence of `c` in `s`, or all of `s` when there is none. */
  function AfterLast(s: string, c: char): (r: string)
    ensures |r| <= |s| && c !in r
    ensures r == s[|s| - |r|..]
    decreases |s|
  {
    if s == [] then []
    else if s[|s| - 1] == c then []
    else AfterLast(s[..|s| - 1], c) + [s[|s| - 1]]
  }

  /** `Path::file_name` for paths without `.` components: the last component, trailing '/' ignored. */
  function FileName(path: string): Option<string> {
    var name := AfterLast(TrimEndChar(path, '/'), '/');
    if name == "" || name == ".." then None else Some(name)
  }

  /**
   * `Path::extension`: the text after the file name's last '.', unless the only '.' starts
   * the name (a hidden file has no extension) or there is no '.' at all.
   */
  function Extension(path: string): (r: Option<string>)
    ensures r.Some? ==> '.' !in r.value
  {
    match FileName(path)
    case None => None
    case Some(name) =>
      var ext := AfterLast(name, '.');
      if |ext| == |name| then None
      else if |ext| + 1 == |name| then None
      else Some(ext)
  }

  /** The content type for a file's extension; anything unknown is a byte stream. */
  function ContentType(ext: Option<string>): (r: string)
    ensures ext.None? ==> r == "application/octet-stream"
  {
    match ext
    case None => "application/octet-stream"
    case Some(e) =>
      if e == "html" then "text/html"
      else if e == "css" then "text/css"
      else if e == "js" then "application/javascript"
      else if e == "json" then "application/json"
      else if e == "png" then "image/png"
      else if e == "jpg" || e == "jpeg" then "image/jpeg"
      else if e == "svg" then "image/svg+xml"
      else "application/octet-stream"
  }

  /** `serve_file`: the file's bytes with their content type, or 404 naming the path. */
  function ServeFile(path: string, read: Result<seq<byte>, string>): (r: Response)
    ensures read.Ok? ==> r == Response(OK, [Header("content-type", ContentType(Extension(path)))], Bytes(read.value))
    ensures read.Err? ==> r == Response(NOT_FOUND, [], Text("File not found: " + path))
  {
    match read
    case Ok(content) => Response(OK, [Header("content-type", ContentType(Extension(path)))], Bytes(content))
    case Err(_) => Response(NOT_FOUND, [], Text("File not found: " + path))
  }

  /** `index_handler`: the index page of the static directory. */
  function IndexHandler(read: Result<seq<byte>, string>): Response {
    ServeFile(IndexPath(StaticDir), read)
  }

  /** `fallback_handler`: 404 naming the unmatched URI. */
  function FallbackHandler(uri: string): (r: Response)
    ensures r.status == 404 && r.headers == [] && r.body == Text("404 - Not Found: " + uri)
  {
    Response(NOT_FOUND, [], Text("404 - Not Found: " + uri))
  }

  lemma {:induction false} AfterLastOfSuffix(prefix: string, c: char, suffix: string)
    requires c !in suffix
    ensures AfterLast(prefix + [c] + suffix, c) == suffix
    decreases |suffix|
  {
    var s := prefix + [c] + suffix;
    if suffix == [] {
      assert s[|s| - 1] == c;
    } else {
      var init := suffix[..|suffix| - 1];
      assert s[..|s| - 1] == prefix + [c] + init;
      assert s[|s| - 1] == suffix[|suffix| - 1];
      AfterLastOfSuffix(prefix, c, init);
      assert init + [suffix[|suffix| - 1]] == suffix;
    }
  }

  /** A file `dir/name.ext` whose extension is non-empty and holds no '.' is labelled by that extension. */
  lemma ExtensionOfNamedFile(dir: string, name: string, ext: string)
    requires '/' !in name && '/' !in ext && '.' !in ext
    requires |name| > 0 && |ext| > 0
    ensures Extension(dir + "/" + name + "." + ext) == Some(ext)
  {
    var path := dir + "/" + name + "." + ext;
    var file := name + "." + ext;
    assert path == dir + ['/'] + file;
    assert path[|path| - 1] == ext[|ext| - 1];
    assert TrimEndChar(path, '/') == path;
    assert '/' !in file;
    AfterLastOfSuffix(dir, '/', file);
    assert file == name + ['.'] + ext;
    AfterLastOfSuffix(name, '.', ext);
    assert file != "..";
  }

  lemma IndexNameChars()
    ensures '/' !in "index" && '/' !in "html" && '.' !in "html"
  {
    assert forall i | 0 <= i < |"index"| :: "index"[i] != '/';
    assert forall i | 0 <= i < |"html"| :: "html"[i] != '/' && "html"[i] != '.';
  }

  /** The index page of any static directory has the extension `html`. */
  lemma IndexExtension(staticDir: string)
    ensures Extension(IndexPath(staticDir)) == Some("html")
  {
    IndexNameChars();
    ExtensionOfNamedFile(staticDir, "index", "html");
    assert staticDir + "/" + "index" + "." + "html" == staticDir + "/index.html";
  }

  /** The index handler reads `/app/static/index.html` and serves it as HTML. */
  lemma IndexIsHtml(content: seq<byte>)
    ensures IndexHandler(Ok(content)) == Response(200, [Header("content-type", "text/html")], Bytes(content))
  {
    IndexExtension(StaticDir);
  }

  /** A failed read of the index page is a 404 naming `/app/static/index.html`. */
  lemma IndexMissing(error: string)
    ensures IndexHandler(Err(error)) == Response(404, [], Text("File not found: /app/static/index.html"))
  {
    assert IndexPath(StaticDir) == "/app/static/index.html";
    assert "File not found: " + IndexPath(StaticDir) == "File not found: /app/static/index.html";
  }

  /** The MIME table: the eight known extensions, and a byte stream for everything else. */
  lemma ContentTypeTable(e: string)
    ensures ContentType(Some("html")) == "text/html" && ContentType(Some("css")) == "text/css"
    ensures ContentType(Some("js")) == "application/javascript" && ContentType(Some("json")) == "application/json"
    ensures ContentType(Some("png")) == "image/png" && ContentType(Some("svg")) == "image/svg+xml"
    ensures ContentType(Some("jpg")) == "image/jpeg" && ContentType(Some("jpeg")) == "image/jpeg"
    ensures e !in {"html", "css", "js", "json", "png", "jpg", "jpeg", "svg"} ==> ContentType(Some(e)) == "application/octet-stream"
  {
  }

  /** A hidden file such as `.env` has no extension, so it is served as a byte stream. */
  lemma HiddenFileIsBytes(dir: string, name: string)
    requires '/' !in name && '.' !in name && |name| > 0
    ensures ContentType(Extension(dir + "/." + name)) == "application/octet-stream"
  {
    var path := dir + "/." + name;
    var file := "." + name;
    assert path == dir + ['/'] + file;
    assert path[|path| - 1] == name[|name| - 1];
    AfterLastOfSuffix(dir, '/', file);
    assert file == [] + ['.'] + name;
    AfterLastOfSuffix([], '.', name);
  }
}
