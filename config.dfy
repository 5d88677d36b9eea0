/** Asset and prompt URLs for the development and production builds. Whether the
    build is a development build is a parameter (`isDevelopment`), and
    `encodeURIComponent` is a parameter (`encode`) the production Excel URL applies
    to the file name. */
module Config {
  import opened JsStrings

  const DevServer := "https://localhost:3003"

  /** Where production builds fetch Excel workbooks from. */
  const ExcelAssetsUrl := "https://raw.githubusercontent.com/Judefinisterra/EBITDAI-Assets/main/"

  /** `baseUrl`: the development server, or the empty string in production. It
      never ends in '/', so appending "/" + path yields a single separator. */
  function BaseUrl(isDevelopment: bool): (r: string)
    ensures r != [] <==> isDevelopment
    ensures r == [] || r[|r| - 1] != '/'
  {
    if isDevelopment then DevServer else ""
  }

  /** The path with one leading '/' removed, if it has one. */
  function CleanPath(path: string): (r: string)
    ensures if StartsWith(path, "/") then "/" + r == path else r == path
  {
    if StartsWith(path, "/") then path[1..] else path
  }

  /** The file name (last '/'-separated segment) of the cleaned path ends in ".xlsx". */
  predicate IsExcelFile(cleanPath: string) {
    EndsWith(LastSegment(cleanPath), ".xlsx")
  }

  /** The raw-file URL of an Excel workbook, from its file name alone. */
  function ExcelUrl(encode: string -> string, cleanPath: string): string {
    ExcelAssetsUrl + encode(LastSegment(cleanPath))
  }

  /** `getAssetUrl(path)`: the development server plus the path in development; in
      production the raw-file URL for an Excel workbook, a page-relative path for
      anything else. */
  function GetAssetUrl(isDevelopment: bool, encode: string -> string, path: string): (r: string)
    ensures isDevelopment ==> StartsWith(r, DevServer + "/")
    ensures !isDevelopment && IsExcelFile(CleanPath(path)) ==> StartsWith(r, ExcelAssetsUrl)
    ensures !isDevelopment && !IsExcelFile(CleanPath(path)) ==> StartsWith(r, "./")
  {
    var cleanPath := CleanPath(path);
    if isDevelopment then BaseUrl(isDevelopment) + "/" + cleanPath
    else if IsExcelFile(cleanPath) then ExcelUrl(encode, cleanPath)
    else "./" + cleanPath
  }

  /** `getAssetUrlsWithFallback(path)`: the candidate URLs to try in order. One in
      development and for a production Excel workbook; four for any other
      production asset: page-relative, root-relative, the Next.js static folder, and
      the assets folder with the first "assets/" taken out of the path. */
  function GetAssetUrlsWithFallback(isDevelopment: bool, encode: string -> string, path: string): (urls: seq<string>)
    ensures |urls| == if !isDevelopment && !IsExcelFile(CleanPath(path)) then 4 else 1
  {
    var cleanPath := CleanPath(path);
    if isDevelopment then [BaseUrl(isDevelopment) + "/" + cleanPath]
    else if IsExcelFile(cleanPath) then [ExcelUrl(encode, cleanPath)]
    else [
      "./" + cleanPath,
      "/" + cleanPath,
      "_next/static/" + cleanPath,
      "assets/" + RemoveFirst(cleanPath, "assets/")
    ]
  }

  /** `getPromptUrl(filename)`: the prompts folder of the development server, or the
      page-relative prompts folder in production. */
  function GetPromptUrl(isDevelopment: bool, filename: string): (r: string)
    ensures EndsWith(r, "prompts/" + filename)
    ensures isDevelopment ==> StartsWith(r, DevServer + "/")
    ensures !isDevelopment ==> StartsWith(r, "./")
  {
    if isDevelopment then "https://localhost:3003/prompts/" + filename else "./prompts/" + filename
  }

  // ---------------------------------------------------------------------------
  // Properties
  // ---------------------------------------------------------------------------

  /** In development the asset URL is the base URL, one '/', and the cleaned path. */
  lemma {:induction false} DevAssetUrl(encode: string -> string, path: string)
    ensures GetAssetUrl(true, encode, path) == BaseUrl(true) + "/" + CleanPath(path)
    ensures GetAssetUrl(true, encode, path) == "https://localhost:3003/" + CleanPath(path)
  {
  }

  /** One leading '/' makes no difference to either URL builder. */
  lemma {:induction false} LeadingSlashIgnored(isDevelopment: bool, encode: string -> string, path: string)
    requires !StartsWith(path, "/")
    ensures GetAssetUrl(isDevelopment, encode, "/" + path) == GetAssetUrl(isDevelopment, encode, path)
    ensures GetAssetUrlsWithFallback(isDevelopment, encode, "/" + path)
         == GetAssetUrlsWithFallback(isDevelopment, encode, path)
  {
    assert CleanPath("/" + path) == path;
  }

  /** Exactly one leading '/' is removed, even when the path has more: "//x.png"
      becomes "https://localhost:3003//x.png" in development and ".//x.png" in
      production. */
  lemma {:induction false} OnlyOneSlashRemoved(encode: string -> string, path: string)
    ensures CleanPath("/" + path) == path
    ensures GetAssetUrl(true, encode, "/" + path) == "https://localhost:3003/" + path
    ensures !IsExcelFile(path) ==> GetAssetUrl(false, encode, "/" + path) == "./" + path
  {
  }

  /** In production an Excel workbook is fetched by its file name alone: the
      directories before it are dropped. */
  lemma {:induction false} ExcelUrlIgnoresDirectories(encode: string -> string, dir: string, name: string)
    requires '/' !in name && EndsWith(name, ".xlsx")
    ensures GetAssetUrl(false, encode, dir + "/" + name) == ExcelAssetsUrl + encode(name)
    ensures GetAssetUrl(false, encode, name) == ExcelAssetsUrl + encode(name)
  {
    var path := dir + "/" + name;
    assert LastSegment(name) == name;
    assert CleanPath(name) == name by {
      assert name != [] && name[0] in name;
    }
    assert LastSegment(CleanPath(path)) == name by {
      if StartsWith(path, "/") {
        if dir == [] {
          assert path == "/" + name;
        } else {
          assert CleanPath(path) == dir[1..] + "/" + name;
          LastSegmentAfterSlash(dir[1..], name);
        }
      } else {
        LastSegmentAfterSlash(dir, name);
      }
    }
  }

  /** In production any path whose file name does not end in ".xlsx" is served
      page-relative. */
  lemma {:induction false} NonExcelAssetIsRelative(encode: string -> string, path: string)
    ensures !IsExcelFile(CleanPath(path)) ==> GetAssetUrl(false, encode, path) == "./" + CleanPath(path)
  {
  }

  /** The first fallback candidate is always the asset URL itself. */
  lemma {:induction false} FirstFallbackIsAssetUrl(isDevelopment: bool, encode: string -> string, path: string)
    ensures GetAssetUrlsWithFallback(isDevelopment, encode, path)[0] == GetAssetUrl(isDevelopment, encode, path)
  {
  }

  /** For a path already under "assets/", the assets-folder candidate is the path
      itself: the prefix is not doubled. */
  lemma {:induction false} AssetsCandidateNotDoubled(encode: string -> string, path: string)
    requires StartsWith(CleanPath(path), "assets/") && !IsExcelFile(CleanPath(path))
    ensures GetAssetUrlsWithFallback(false, encode, path)[3] == "assets/" + RemoveFirst(CleanPath(path), "assets/")
    ensures GetAssetUrlsWithFallback(false, encode, path)[3] == CleanPath(path)
  {
  }

  /** A prompt URL is the asset URL of the same file in the "prompts" folder, unless
      it is an Excel workbook in production. */
  lemma {:induction false} PromptUrlIsAssetUrl(isDevelopment: bool, encode: string -> string, filename: string)
    requires isDevelopment || !IsExcelFile("prompts/" + filename)
    ensures GetPromptUrl(isDevelopment, filename) == GetAssetUrl(isDevelopment, encode, "prompts/" + filename)
  {
    assert ("prompts/" + filename)[0] == 'p';
    assert CleanPath("prompts/" + filename) == "prompts/" + filename;
  }

  /** Prompts are always served by the add-in itself, never from the GitHub raw-file
      route: the development server's prompts folder, or the page-relative one in
      production, whatever the file name (an ".xlsx" name included). */
  lemma {:induction false} PromptUrlIsLocal(filename: string)
    ensures GetPromptUrl(true, filename) == DevServer + "/prompts/" + filename
    ensures GetPromptUrl(false, filename) == "./prompts/" + filename
  {
  }

  /** The four production candidates for an asset that is not an Excel workbook:
      the page-relative path, the path from the site root (the original path when it
      already starts with '/'), the path under the Next.js static folder, and the path
      under the assets folder with its first "assets/" taken out, so that every
      candidate names the same cleaned path. */
  lemma {:induction false} ProductionFallbackCandidates(encode: string -> string, path: string)
    ensures !IsExcelFile(CleanPath(path)) ==>
      var urls, cleanPath := GetAssetUrlsWithFallback(false, encode, path), CleanPath(path);
      && urls[0] == "./" + cleanPath
      && urls[1] == "/" + cleanPath
      && (StartsWith(path, "/") ==> urls[1] == path)
      && urls[2] == "_next/static/" + cleanPath
      && urls[3] == "assets/" + RemoveFirst(cleanPath, "assets/")
      && (IndexOf(cleanPath, "assets/") == -1 ==> urls[3] == "assets/" + cleanPath)
  {
  }
}
