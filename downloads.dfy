/** `DownloadController` (the `/dwn` endpoints): serving a job's output and
    input files and listing its output folder. The file system is given: the
    set of paths that are regular files, and a folder's listing as entries. */
module Downloads {
  import opened Common
  import opened Listing

  const OUTPUT_DIR := "./outputFiles"
  const INPUT_DIR := "./inputFiles"
  const OCTET_STREAM := "application/octet-stream"

  const FOLDER_ICON := "📁"
  const PAGE_ICON := "📄"

  // ------------------------------------------------------ suffix tables

  /** `guessContentType`: the first suffix rule the lower-cased name ends with. */
  function GuessContentType(name: string): (t: string)
    ensures t in KNOWN_TYPES
  {
    ContentTypeOf(ToLower(name))
  }

  /** The thirteen types `guessContentType` answers with. */
  const KNOWN_TYPES: set<string> := {"text/html", "text/css", "application/javascript", "application/json",
    "text/csv", "text/plain", "application/pdf", "image/png", "image/jpeg", "image/svg+xml",
    "application/xml", "application/zip", OCTET_STREAM}

  /** The rule chain of `guessContentType`, on the lower-cased name. */
  function ContentTypeOf(lower: string): (t: string)
    ensures t in KNOWN_TYPES
  {
    if EndsWith(lower, ".html") || EndsWith(lower, ".htm") then "text/html"
    else if EndsWith(lower, ".css") then "text/css"
    else if EndsWith(lower, ".js") then "application/javascript"
    else if EndsWith(lower, ".json") then "application/json"
    else if EndsWith(lower, ".csv") then "text/csv"
    else if EndsWith(lower, ".txt") || EndsWith(lower, ".log") then "text/plain"
    else if EndsWith(lower, ".pdf") then "application/pdf"
    else if EndsWith(lower, ".png") then "image/png"
    else if EndsWith(lower, ".jpg") || EndsWith(lower, ".jpeg") then "image/jpeg"
    else if EndsWith(lower, ".svg") then "image/svg+xml"
    else if EndsWith(lower, ".xml") then "application/xml"
    else if EndsWith(lower, ".zip") then "application/zip"
    else OCTET_STREAM
  }

  /** `guessIcon`: the same kind of chain, onto six icons. The globe marks
      exactly the names served as HTML and the red book exactly the PDFs. */
  function GuessIcon(name: string): (icon: string)
    ensures icon in {"🌐", PAGE_ICON, "📕", "🖼", "📋", "📦"}
    ensures icon == "🌐" <==> GuessContentType(name) == "text/html"
    ensures icon == "📕" <==> GuessContentType(name) == "application/pdf"
  {
    PdfIsNoEarlierType(ToLower(name));
    IconOf(ToLower(name))
  }

  /** A name ending in ".pdf" ends in none of the suffixes `guessContentType`
      tries before it that `guessIcon` does not. */
  lemma PdfIsNoEarlierType(lower: string)
    ensures EndsWith(lower, ".pdf") ==> !EndsWith(lower, ".css") && !EndsWith(lower, ".js") && !EndsWith(lower, ".json")
  {
    if EndsWith(lower, ".pdf") {
      var n := |lower|;
      assert lower[n - 4..][3] == lower[n - 1] == 'f';
      assert lower[n - 3..][2] == lower[n - 1];
      if n >= 5 {
        assert lower[n - 5..][4] == lower[n - 1];
      }
    }
  }

  function IconOf(lower: string): string {
    if EndsWith(lower, ".html") || EndsWith(lower, ".htm") then "🌐"
    else if EndsWith(lower, ".csv") || EndsWith(lower, ".txt") || EndsWith(lower, ".log") then PAGE_ICON
    else if EndsWith(lower, ".pdf") then "📕"
    else if EndsWith(lower, ".png") || EndsWith(lower, ".jpg") || EndsWith(lower, ".jpeg") || EndsWith(lower, ".svg") then "🖼"
    else if EndsWith(lower, ".json") || EndsWith(lower, ".xml") then "📋"
    else if EndsWith(lower, ".zip") || EndsWith(lower, ".jar") then "📦"
    else PAGE_ICON
  }

  /** The content-type rules as a table of (suffix, type), in the order tried. */
  const CONTENT_TYPES: seq<(string, string)> := [
    (".html", "text/html"), (".htm", "text/html"), (".css", "text/css"),
    (".js", "application/javascript"), (".json", "application/json"), (".csv", "text/csv"),
    (".txt", "text/plain"), (".log", "text/plain"), (".pdf", "application/pdf"),
    (".png", "image/png"), (".jpg", "image/jpeg"), (".jpeg", "image/jpeg"),
    (".svg", "image/svg+xml"), (".xml", "application/xml"), (".zip", "application/zip")
  ]

  /** The type of the first rule whose suffix `lower` ends with, else the default. */
  function FirstMatch(lower: string, rules: seq<(string, string)>, default: string): string {
    if |rules| == 0 then default
    else if EndsWith(lower, rules[0].0) then rules[0].1
    else FirstMatch(lower, rules[1..], default)
  }

  /** The if-chain is the table read top-down: a name gets the type of the
      first listed suffix its lower-cased form ends with. */
  lemma ContentTypeByTable(lower: string)
    ensures ContentTypeOf(lower) == FirstMatch(lower, CONTENT_TYPES, OCTET_STREAM)
  {
    var r, d := CONTENT_TYPES, OCTET_STREAM;
    assert r[0..][0] == (".html", "text/html") && r[0..][1..] == r[1..];
    if EndsWith(lower, ".html") { return; }
    assert FirstMatch(lower, r[0..], d) == FirstMatch(lower, r[1..], d);
    assert r[1..][0] == (".htm", "text/html") && r[1..][1..] == r[2..];
    if EndsWith(lower, ".htm") { return; }
    assert FirstMatch(lower, r[1..], d) == FirstMatch(lower, r[2..], d);
    assert r[2..][0] == (".css", "text/css") && r[2..][1..] == r[3..];
    if EndsWith(lower, ".css") { return; }
    assert FirstMatch(lower, r[2..], d) == FirstMatch(lower, r[3..], d);
    assert r[3..][0] == (".js", "application/javascript") && r[3..][1..] == r[4..];
    if EndsWith(lower, ".js") { return; }
    assert FirstMatch(lower, r[3..], d) == FirstMatch(lower, r[4..], d);
    assert r[4..][0] == (".json", "application/json") && r[4..][1..] == r[5..];
    if EndsWith(lower, ".json") { return; }
    assert FirstMatch(lower, r[4..], d) == FirstMatch(lower, r[5..], d);
    ContentTypeRulesFrom5(lower);
  }

  /** The rules from the sixth on, for a name none of the earlier ones matches. */
  lemma ContentTypeRulesFrom5(lower: string)
    requires !(EndsWith(lower, ".html") || EndsWith(lower, ".htm") || EndsWith(lower, ".css") || EndsWith(lower, ".js") || EndsWith(lower, ".json"))
    ensures ContentTypeOf(lower) == FirstMatch(lower, CONTENT_TYPES[5..], OCTET_STREAM)
  {
    var r, d := CONTENT_TYPES, OCTET_STREAM;
    assert r[5..][0] == (".csv", "text/csv") && r[5..][1..] == r[6..];
    if EndsWith(lower, ".csv") { return; }
    assert FirstMatch(lower, r[5..], d) == FirstMatch(lower, r[6..], d);
    assert r[6..][0] == (".txt", "text/plain") && r[6..][1..] == r[7..];
    if EndsWith(lower, ".txt") { return; }
    assert FirstMatch(lower, r[6..], d) == FirstMatch(lower, r[7..], d);
    assert r[7..][0] == (".log", "text/plain") && r[7..][1..] == r[8..];
    if EndsWith(lower, ".log") { return; }
    assert FirstMatch(lower, r[7..], d) == FirstMatch(lower, r[8..], d);
    assert r[8..][0] == (".pdf", "application/pdf") && r[8..][1..] == r[9..];
    if EndsWith(lower, ".pdf") { return; }
    assert FirstMatch(lower, r[8..], d) == FirstMatch(lower, r[9..], d);
    assert r[9..][0] == (".png", "image/png") && r[9..][1..] == r[10..];
    if EndsWith(lower, ".png") { return; }
    assert FirstMatch(lower, r[9..], d) == FirstMatch(lower, r[10..], d);
    ContentTypeRulesFrom10(lower);
  }

  /** The rules from the eleventh on, for a name none of the earlier ones matches. */
  lemma ContentTypeRulesFrom10(lower: string)
    requires !(EndsWith(lower, ".html") || EndsWith(lower, ".htm") || EndsWith(lower, ".css") || EndsWith(lower, ".js") || EndsWith(lower, ".json") || EndsWith(lower, ".csv") || EndsWith(lower, ".txt") || EndsWith(lower, ".log") || EndsWith(lower, ".pdf") || EndsWith(lower, ".png"))
    ensures ContentTypeOf(lower) == FirstMatch(lower, CONTENT_TYPES[10..], OCTET_STREAM)
  {
    var r, d := CONTENT_TYPES, OCTET_STREAM;
    assert r[10..][0] == (".jpg", "image/jpeg") && r[10..][1..] == r[11..];
    if EndsWith(lower, ".jpg") { return; }
    assert FirstMatch(lower, r[10..], d) == FirstMatch(lower, r[11..], d);
    assert r[11..][0] == (".jpeg", "image/jpeg") && r[11..][1..] == r[12..];
    if EndsWith(lower, ".jpeg") { return; }
    assert FirstMatch(lower, r[11..], d) == FirstMatch(lower, r[12..], d);
    assert r[12..][0] == (".svg", "image/svg+xml") && r[12..][1..] == r[13..];
    if EndsWith(lower, ".svg") { return; }
    assert FirstMatch(lower, r[12..], d) == FirstMatch(lower, r[13..], d);
    assert r[13..][0] == (".xml", "application/xml") && r[13..][1..] == r[14..];
    if EndsWith(lower, ".xml") { return; }
    assert FirstMatch(lower, r[13..], d) == FirstMatch(lower, r[14..], d);
    assert r[14..][0] == (".zip", "application/zip") && r[14..][1..] == r[15..];
    if EndsWith(lower, ".zip") { return; }
    assert FirstMatch(lower, r[14..], d) == FirstMatch(lower, r[15..], d);
    assert r[15..] == [];
  }

  /** `toLowerCase` leaves lower-case text as it is. */
  lemma ToLowerIdempotent(s: string)
    ensures ToLower(ToLower(s)) == ToLower(s)
  {
  }

  /** Both guesses ignore the case of the name. */
  lemma GuessesIgnoreCase(name: string)
    ensures GuessContentType(ToLower(name)) == GuessContentType(name)
    ensures GuessIcon(ToLower(name)) == GuessIcon(name)
  {
    ToLowerIdempotent(name);
  }

  // ---------------------------------------------------------- escaping

  /** `esc`: null becomes "", otherwise '&' is replaced first, then '<', '>' and '"'. */
  function Esc(s: Option<string>): string {
    if s.None? then ""
    else ReplaceChar(ReplaceChar(ReplaceChar(ReplaceChar(s.value, '&', "&amp;"), '<', "&lt;"), '>', "&gt;"), '"', "&quot;")
  }

  /** The entity one character is written as. */
  function EscChar(c: char): string {
    if c == '&' then "&amp;"
    else if c == '<' then "&lt;"
    else if c == '>' then "&gt;"
    else if c == '"' then "&quot;"
    else [c]
  }

  /** Escaping character by character. */
  function EscEach(s: string): string {
    if |s| == 0 then [] else EscChar(s[0]) + EscEach(s[1..])
  }

  lemma EscOneChar(c: char)
    ensures Esc(Some([c])) == EscChar(c)
  {
    if c == '&' {
      EscAmp();
    } else if c == '<' {
      EscLt();
    } else if c == '>' {
      EscGt();
    } else if c == '"' {
      EscQuot();
    } else {
      ReplaceOne(c, '&', "&amp;");
      ReplaceOne(c, '<', "&lt;");
      ReplaceOne(c, '>', "&gt;");
      ReplaceOne(c, '"', "&quot;");
    }
  }

  /** '&' becomes "&amp;", which no later replacement touches. */
  lemma EscAmp()
    ensures Esc(Some("&")) == EscChar('&')
  {
    assert ReplaceChar("&", '&', "&amp;") == "&amp;";
    assert ReplaceChar("&amp;", '<', "&lt;") == "&amp;";
    assert ReplaceChar("&amp;", '>', "&gt;") == "&amp;";
    assert ReplaceChar("&amp;", '"', "&quot;") == "&amp;";
  }

  /** '<' becomes "&lt;", which no later replacement touches. */
  lemma EscLt()
    ensures Esc(Some("<")) == EscChar('<')
  {
    assert ReplaceChar("<", '&', "&amp;") == "<";
    assert ReplaceChar("<", '<', "&lt;") == "&lt;";
    assert ReplaceChar("&lt;", '>', "&gt;") == "&lt;";
    assert ReplaceChar("&lt;", '"', "&quot;") == "&lt;";
  }

  /** '>' becomes "&gt;", which the last replacement leaves alone. */
  lemma EscGt()
    ensures Esc(Some(">")) == EscChar('>')
  {
    assert ReplaceChar(">", '&', "&amp;") == ">";
    assert ReplaceChar(">", '<', "&lt;") == ">";
    assert ReplaceChar(">", '>', "&gt;") == "&gt;";
    assert ReplaceChar("&gt;", '"', "&quot;") == "&gt;";
  }

  /** '"' becomes "&quot;", the last replacement. */
  lemma EscQuot()
    ensures Esc(Some("\"")) == EscChar('"')
  {
    assert ReplaceChar("\"", '&', "&amp;") == "\"";
    assert ReplaceChar("\"", '<', "&lt;") == "\"";
    assert ReplaceChar("\"", '>', "&gt;") == "\"";
    assert ReplaceChar("\"", '"', "&quot;") == "&quot;";
  }

  lemma ReplaceOne(c: char, target: char, replacement: string)
    ensures ReplaceChar([c], target, replacement) == if c == target then replacement else [c]
  {
    assert [c][1..] == [];
  }

  /** Because '&' goes first, no entity the later replacements write is
      escaped again: the result is each character's entity in turn. */
  lemma {:induction false} EscIsPerCharacter(s: string)
    ensures Esc(Some(s)) == EscEach(s)
    decreases |s|
  {
    if |s| > 0 {
      var t := s[1..];
      assert s == [s[0]] + t;
      var a := ReplaceChar([s[0]], '&', "&amp;");
      var b := ReplaceChar(t, '&', "&amp;");
      ReplaceCharAppend([s[0]], t, '&', "&amp;");
      var a2 := ReplaceChar(a, '<', "&lt;");
      var b2 := ReplaceChar(b, '<', "&lt;");
      ReplaceCharAppend(a, b, '<', "&lt;");
      var a3 := ReplaceChar(a2, '>', "&gt;");
      var b3 := ReplaceChar(b2, '>', "&gt;");
      ReplaceCharAppend(a2, b2, '>', "&gt;");
      ReplaceCharAppend(a3, b3, '"', "&quot;");
      EscOneChar(s[0]);
      EscIsPerCharacter(t);
    }
  }

  lemma {:induction false} EscEachIsSafe(s: string)
    ensures '<' !in EscEach(s) && '>' !in EscEach(s) && '"' !in EscEach(s)
    decreases |s|
  {
    if |s| > 0 {
      EscEachIsSafe(s[1..]);
    }
  }

  /** Escaped text holds no raw '<', '>' or '"'. */
  lemma EscIsSafe(s: Option<string>)
    ensures '<' !in Esc(s) && '>' !in Esc(s) && '"' !in Esc(s)
  {
    if s.Some? {
      EscIsPerCharacter(s.value);
      EscEachIsSafe(s.value);
    }
  }

  // ------------------------------------------------------ serving files

  datatype FileResponse =
    | BadRequest
    | NotFound
    | Served(path: string, contentType: string, disposition: string)

  /** `Paths.get(root, jobId, fileName)`. */
  function FilePath(root: string, jobId: string, fileName: string): string {
    root + "/" + jobId + "/" + fileName
  }

  /** The types `serveFile` shows in the browser. */
  predicate IsInline(contentType: string) {
    StartsWith(contentType, "text/") || contentType == "application/pdf" || StartsWith(contentType, "image/")
  }

  function Disposition(inline: bool, fileName: string): (d: string)
    ensures StartsWith(d, "inline;") <==> inline
    ensures StartsWith(d, "attachment;") <==> !inline
  {
    var d := (if inline then "inline" else "attachment") + "; filename=\"" + fileName + "\"";
    DispositionHead(inline, fileName);
    d
  }

  lemma DispositionHead(inline: bool, fileName: string)
    ensures var d := (if inline then "inline" else "attachment") + "; filename=\"" + fileName + "\"";
      (StartsWith(d, "inline;") <==> inline) && (StartsWith(d, "attachment;") <==> !inline)
  {
    var head := if inline then "inline" else "attachment";
    var d := head + "; filename=\"" + fileName + "\"";
    assert d[0] == head[0];
    if inline {
      assert d[..7] == "inline;";
      assert d[0] != "attachment;"[0];
    } else {
      assert d[..11] == "attachment;";
      assert d[0] != "inline;"[0];
    }
  }

  /** `serveFile(jobId, fileName)` against the set of paths that are regular files. */
  function ServeFile(jobId: string, fileName: string, regularFiles: set<string>): (r: FileResponse)
    ensures r.BadRequest? <==> Contains(jobId, "..") || Contains(fileName, "..")
    ensures r.NotFound? <==> !r.BadRequest? && FilePath(OUTPUT_DIR, jobId, fileName) !in regularFiles
    ensures r.Served? ==>
      r.path == FilePath(OUTPUT_DIR, jobId, fileName) && r.path in regularFiles
      && r.contentType == GuessContentType(fileName)
      && (StartsWith(r.disposition, "inline;") <==> IsInline(r.contentType))
  {
    if Contains(jobId, "..") || Contains(fileName, "..") then BadRequest
    else
      var path := FilePath(OUTPUT_DIR, jobId, fileName);
      if path !in regularFiles then NotFound
      else
        var contentType := GuessContentType(fileName);
        Served(path, contentType, Disposition(IsInline(contentType), fileName))
  }

  /** `serveInputFile(jobId, fileName)`: the same guard, always inline. */
  function ServeInputFile(jobId: string, fileName: string, regularFiles: set<string>): (r: FileResponse)
    ensures r.BadRequest? <==> Contains(jobId, "..") || Contains(fileName, "..")
    ensures r.NotFound? <==> !r.BadRequest? && FilePath(INPUT_DIR, jobId, fileName) !in regularFiles
    ensures r.Served? ==>
      r.path == FilePath(INPUT_DIR, jobId, fileName) && r.path in regularFiles
      && r.contentType == GuessContentType(fileName)
      && StartsWith(r.disposition, "inline;")
  {
    if Contains(jobId, "..") || Contains(fileName, "..") then BadRequest
    else
      var path := FilePath(INPUT_DIR, jobId, fileName);
      if path !in regularFiles then NotFound
      else Served(path, GuessContentType(fileName), Disposition(true, fileName))
  }

  /** The types `serveFile` shows: HTML, text, PDF and the images; a script,
      JSON, XML, a zip or an unknown type is downloaded instead. */
  const INLINE_TYPES: set<string> := {"text/html", "text/css", "text/csv", "text/plain", "application/pdf",
    "image/png", "image/jpeg", "image/svg+xml"}

  lemma InlineTypes(t: string)
    requires t in KNOWN_TYPES
    ensures IsInline(t) <==> t in INLINE_TYPES
  {
    if t == "text/html" || t == "text/css" || t == "text/csv" || t == "text/plain" {
      assert t[..5] == "text/";
    } else if t == "image/png" || t == "image/jpeg" || t == "image/svg+xml" {
      assert t[..6] == "image/";
    } else if t != "application/pdf" {
      assert t[0] == 'a' && t[|t| - 1] != 'f';
    }
  }

  /** A served output file is shown inline exactly when its name's type is
      one of `INLINE_TYPES`. */
  lemma ServedInlineIff(jobId: string, fileName: string, regularFiles: set<string>)
    requires ServeFile(jobId, fileName, regularFiles).Served?
    ensures StartsWith(ServeFile(jobId, fileName, regularFiles).disposition, "inline;")
      <==> GuessContentType(fileName) in INLINE_TYPES
  {
    InlineTypes(GuessContentType(fileName));
  }

  // ----------------------------------------------------------- listings

  /** One row of a listing page: link, icon, escaped label, size (none for a folder). */
  datatype ListingRow = ListingRow(link: string, icon: string, text: string, size: Option<int>)

  datatype ListingPage = ListingPage(status: int, title: string, notice: string, rows: seq<ListingRow>)

  /** The row `listJob` writes for one entry of job `jobId`'s folder. */
  function JobRow(jobId: string, e: DirEntry): (row: ListingRow)
    ensures e.isDirectory ==> EndsWith(row.link, "/") && row.icon == FOLDER_ICON && row.size.None?
    ensures !e.isDirectory && |e.name| > 0 && e.name[|e.name| - 1] != '/' ==> !EndsWith(row.link, "/")
    ensures !e.isDirectory ==> row.icon == GuessIcon(e.name) && row.size == Some(e.size)
    ensures StartsWith(row.link, "/dwn/" + jobId + "/" + e.name)
    ensures row.text == Esc(Some(e.name))
  {
    var base := "/dwn/" + jobId + "/" + e.name;
    var link := if e.isDirectory then base + "/" else base;
    assert link[..|base|] == base;
    assert |e.name| > 0 ==> base[|base| - 1] == e.name[|e.name| - 1];
    ListingRow(link, if e.isDirectory then FOLDER_ICON else GuessIcon(e.name), Esc(Some(e.name)),
               if e.isDirectory then None else Some(e.size))
  }

  /** The loop both listings share: one row per entry, in the entries' order. */
  method RowsFor(entries: seq<DirEntry>, row: DirEntry -> ListingRow) returns (rows: seq<ListingRow>)
    ensures |rows| == |entries|
    ensures forall k :: 0 <= k < |entries| ==> rows[k] == row(entries[k])
  {
    rows := [];
    for i := 0 to |entries|
      invariant |rows| == i
      invariant forall k :: 0 <= k < i ==> rows[k] == row(entries[k])
    {
      rows := rows + [row(entries[i])];
    }
  }

  /** `listJob(jobId)`: 404 when the folder is missing; otherwise one row per
      entry, the entries sorted by name. */
  method ListJob(jobId: string, folder: Option<seq<DirEntry>>) returns (page: ListingPage)
    ensures folder.None? ==>
      page == ListingPage(404, "Not Found", "No output folder for job " + Esc(Some(jobId)) + ".", [])
    ensures folder.Some? ==>
      page.status == 200 && page.title == "Job " + Esc(Some(jobId)) + " — Output Files"
      && (page.notice == "No files in this folder." <==> |folder.value| == 0)
      && |page.rows| == |folder.value|
      && forall k :: 0 <= k < |page.rows| ==> page.rows[k] == JobRow(jobId, SortByName(folder.value)[k])
  {
    if folder.None? {
      return ListingPage(404, "Not Found", "No output folder for job " + Esc(Some(jobId)) + ".", []);
    }
    var files := SortByName(folder.value);
    var rows := RowsFor(files, e => JobRow(jobId, e));
    var notice := if |files| == 0 then "No files in this folder." else "";
    page := ListingPage(200, "Job " + Esc(Some(jobId)) + " — Output Files", notice, rows);
  }

  /** The rows of a job listing are in name order and hold each entry once. */
  lemma ListJobOrdered(folder: seq<DirEntry>)
    ensures SortedByName(SortByName(folder)) && multiset(SortByName(folder)) == multiset(folder)
  {
    SortByNameCorrect(folder);
  }

  /** The row `listRoot` writes for one job folder and its entry count. */
  function RootRow(e: DirEntry, count: nat): ListingRow {
    ListingRow("/dwn/" + e.name + "/", FOLDER_ICON, "Job " + e.name, Some(count))
  }

  /** `.filter(Files::isDirectory)`. */
  function Directories(s: seq<DirEntry>): (r: seq<DirEntry>)
    ensures forall k :: 0 <= k < |r| ==> r[k] in s && r[k].isDirectory
    ensures forall e :: e in s && e.isDirectory ==> e in r
  {
    if |s| == 0 then []
    else (if s[0].isDirectory then [s[0]] else []) + Directories(s[1..])
  }

  /** `listRoot()`: the job folders, sorted by name, each with the number of
      entries in it (`entryCount`); a missing root lists nothing. */
  method ListRoot(root: Option<seq<DirEntry>>, entryCount: string -> nat) returns (page: ListingPage)
    ensures page.status == 200 && page.title == "Output Files"
    ensures root.None? ==> page.rows == [] && page.notice == "No output files yet."
    ensures root.Some? ==>
      var dirs := SortByName(Directories(root.value));
      |page.rows| == |dirs|
      && (page.notice == "No output files yet." <==> |dirs| == 0)
      && forall k :: 0 <= k < |dirs| ==> page.rows[k] == RootRow(dirs[k], entryCount(dirs[k].name))
  {
    if root.None? {
      return ListingPage(200, "Output Files", "No output files yet.", []);
    }
    var dirs := SortByName(Directories(root.value));
    var rows := RowsFor(dirs, (e: DirEntry) => RootRow(e, entryCount(e.name)));
    var notice := if |dirs| == 0 then "No output files yet." else "";
    page := ListingPage(200, "Output Files", notice, rows);
  }

  /** The root listing shows exactly the folders, in name order. */
  lemma RootListsFolders(root: seq<DirEntry>)
    ensures var dirs := SortByName(Directories(root));
      SortedByName(dirs) && (forall k :: 0 <= k < |dirs| ==> dirs[k].isDirectory && dirs[k] in root)
      && forall e :: e in root && e.isDirectory ==> e in dirs
  {
    var d := Directories(root);
    SortByNameCorrect(d);
    forall e | e in root && e.isDirectory ensures e in SortByName(d) {
      assert e in multiset(d);
    }
    forall k | 0 <= k < |SortByName(d)| ensures SortByName(d)[k].isDirectory && SortByName(d)[k] in root {
      assert SortByName(d)[k] in multiset(SortByName(d));
    }
  }
}
