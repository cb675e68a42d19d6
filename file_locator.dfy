/**
 * The `File` locator of covalent's file-transfer layer: the check of the
 * constructor argument, the default temporary path, the closed set of
 * schemes, the remote and directory flags and the derived file path.
 *
 * The URL parser (`furl`) is not part of this model: a parser is passed in
 * as a function from the locator text to its scheme and path. Its path
 * normalisation is modelled as collapsing runs of '/', and its directory
 * flag as "empty or ending in '/'".
 */
module FileLocator {
  import opened Wrappers

  /** The supported schemes (`FileSchemes`); `LocalFile` is `FileSchemes.File`. */
  datatype FileScheme = Globus | S3 | FTP | HTTP | HTTPS | LocalFile

  /** The scheme texts that `resolve_scheme` accepts. */
  const SupportedSchemeNames: set<string> := {"globus", "s3", "ftp", "http", "https", "file"}

  /** The scheme text each enum member compares equal to. */
  function SchemeName(s: FileScheme): string {
    match s
    case Globus => "globus"
    case S3 => "s3"
    case FTP => "ftp"
    case HTTP => "http"
    case HTTPS => "https"
    case LocalFile => "file"
  }

  /** What the URL parser yields for a locator: its scheme, if any, and its path. */
  datatype ParsedUrl = ParsedUrl(scheme: Option<string>, path: string)

  /** The constructor's `filepath` argument: a string, `None`, or a value of another type. */
  datatype FilepathArg = PathString(s: string) | NoPath | NotAString

  datatype FileError = AttributeError(message: string) | ValueError(message: string)

  const NotAStringMessage := "Only strings are valid filepaths for a covalent File constructor."

  function UnsupportedSchemeMessage(scheme: string): string {
    "Provided File scheme (" + scheme + ") is not supported."
  }

  /**
   * A constructed `File`. Every field is assigned once, by the constructor;
   * the three flags start out false and are only ever set to true.
   */
  datatype File = File(
    id: string,
    remoteOverride: bool,   // `_is_remote`
    dirOverride: bool,      // `_is_dir`
    includeFolder: bool,    // `_include_folder`
    scheme: FileScheme,
    pathObject: string)     // `_path_object`: the normalised path, scheme dropped

  predicate EndsWithSlash(s: string) {
    |s| > 0 && s[|s| - 1] == '/'
  }

  predicate NoDoubleSlash(s: string) {
    forall i :: 0 <= i < |s| - 1 ==> !(s[i] == '/' && s[i + 1] == '/')
  }

  /** Path normalisation: every run of separators becomes a single '/'. */
  function CollapseSlashes(s: string): (r: string)
    ensures |r| <= |s|
    ensures NoDoubleSlash(r)
    ensures |s| > 0 ==> |r| > 0 && r[0] == s[0] && r[|r| - 1] == s[|s| - 1]
    ensures NoDoubleSlash(s) ==> r == s
    decreases |s|
  {
    if |s| <= 1 then s
    else if s[0] == '/' && s[1] == '/' then CollapseSlashes(s[1..])
    else [s[0]] + CollapseSlashes(s[1..])
  }

  /**
   * Appending a separator to a normalised path and normalising again: a
   * path already ending in '/' is unchanged, any other gains one '/'.
   */
  lemma {:induction false} CollapseAppendSlash(p: string)
    requires NoDoubleSlash(p)
    ensures CollapseSlashes(p + "/") == if EndsWithSlash(p) then p else p + "/"
    decreases |p|
  {
    var s := p + "/";
    if !EndsWithSlash(p) {
      assert NoDoubleSlash(s) by {
        forall i | 0 <= i < |s| - 1
          ensures !(s[i] == '/' && s[i + 1] == '/')
        {
          if i < |p| - 1 {
            assert s[i] == p[i] && s[i + 1] == p[i + 1];
          }
        }
      }
    } else if |p| >= 2 {
      assert !(p[0] == '/' && p[1] == '/');
      var rest := p[1..];
      assert s[1..] == rest + "/";
      assert NoDoubleSlash(rest) by {
        forall i | 0 <= i < |rest| - 1
          ensures !(rest[i] == '/' && rest[i + 1] == '/')
        {
          assert rest[i] == p[i + 1] && rest[i + 1] == p[i + 2];
        }
      }
      assert EndsWithSlash(rest);
      CollapseAppendSlash(rest);
      assert p == [p[0]] + rest;
    }
  }

  /** `str.rstrip("/")`: drops every trailing '/'. */
  function RStripSlashes(s: string): (r: string)
    ensures !EndsWithSlash(r)
    ensures r <= s
    ensures forall i :: |r| <= i < |s| ==> s[i] == '/'
    decreases |s|
  {
    if EndsWithSlash(s) then RStripSlashes(s[..|s| - 1]) else s
  }

  /** The parser's directory flag for a path: empty, or ending in '/'. */
  predicate PathIsDir(p: string) {
    p == "" || EndsWithSlash(p)
  }

  /** `File.resolve_scheme`: the parsed scheme mapped onto the closed enum. */
  function ResolveScheme(scheme: Option<string>): (r: Result<FileScheme, FileError>)
    ensures scheme.None? ==> r == Success(LocalFile)
    ensures scheme.Some? ==> (r.Success? <==> scheme.value in SupportedSchemeNames)
    ensures scheme.Some? && r.Success? ==> SchemeName(r.value) == scheme.value
    ensures r.Failure? ==> scheme.Some? && r.error == ValueError(UnsupportedSchemeMessage(scheme.value))
  {
    if scheme == Some("globus") then Success(Globus)
    else if scheme == Some("s3") then Success(S3)
    else if scheme == Some("ftp") then Success(FTP)
    else if scheme == Some("http") then Success(HTTP)
    else if scheme == Some("https") then Success(HTTPS)
    else if scheme.None? || scheme == Some("file") then Success(LocalFile)
    else
      Failure(ValueError(UnsupportedSchemeMessage(scheme.value)))
  }

  /** Every scheme's own name resolves back to it. */
  lemma ResolveSchemeName(s: FileScheme)
    ensures ResolveScheme(Some(SchemeName(s))) == Success(s)
  {
  }

  /** `File.get_temp_filepath`. */
  function TempFilepath(id: string): (p: string)
    ensures |p| == 5 + |id| && p[..5] == "/tmp/" && p[5..] == id
  {
    "/tmp/" + id
  }

  /** `File.get_filepath`: the parsed path, normalised; the scheme is dropped. */
  function GetFilepath(u: ParsedUrl): (p: string)
    ensures NoDoubleSlash(p)
    ensures PathIsDir(p) <==> PathIsDir(u.path)
  {
    CollapseSlashes(u.path)
  }

  /**
   * The stored path depends on the parsed path alone, never on the scheme.
   * This is a fact about this model of the parser's result, whose path
   * component is taken to exclude the scheme; `get_filepath` reads only
   * that component.
   */
  lemma GetFilepathDropsScheme(path: string, s1: Option<string>, s2: Option<string>)
    ensures GetFilepath(ParsedUrl(s1, path)) == GetFilepath(ParsedUrl(s2, path))
  {
  }

  /**
   * The first part of `File.__init__`: the argument check and the default
   * path. A value that is neither a string nor `None` is rejected first.
   */
  function SourcePath(filepath: FilepathArg, id: string): (r: Result<string, FileError>)
    ensures filepath.NotAString? <==> r.Failure?
    ensures r.Failure? ==> r.error == AttributeError(NotAStringMessage)
    ensures filepath.NoPath? ==> r == Success(TempFilepath(id))
    ensures filepath.PathString? ==> r == Success(filepath.s)
  {
    match filepath
    case NotAString => Failure(AttributeError(NotAStringMessage))
    case NoPath => Success(TempFilepath(id))
    case PathString(s) => Success(s)
  }

  /**
   * `File.__init__`: `id` is the fresh identifier the constructor draws and
   * `parse` is the URL parser.
   */
  function NewFile(filepath: FilepathArg, id: string, isRemote: bool, isDir: bool,
                   includeFolder: bool, parse: string -> ParsedUrl): (r: Result<File, FileError>)
    ensures filepath.NotAString? ==> r == Failure(AttributeError(NotAStringMessage))
    ensures r.Success? ==> && r.value.id == id
                           && r.value.remoteOverride == isRemote
                           && r.value.dirOverride == isDir
                           && r.value.includeFolder == includeFolder
    ensures !filepath.NotAString? ==>
      var u := parse(SourcePath(filepath, id).value);
      && (r.Success? <==> ResolveScheme(u.scheme).Success?)
      && (r.Success? ==> r.value.scheme == ResolveScheme(u.scheme).value
                         && r.value.pathObject == GetFilepath(u))
      && (r.Failure? ==> r.error.ValueError?)
  {
    match SourcePath(filepath, id)
    case Failure(e) => Failure(e)
    case Success(path) =>
      match ResolveScheme(parse(path).scheme)
      case Failure(e) => Failure(e)
      case Success(scheme) =>
        Success(File(id, isRemote, isDir, includeFolder, scheme, GetFilepath(parse(path))))
  }

  /** The `is_remote` property. */
  function IsRemote(f: File): (r: bool)
    ensures r <==> f.remoteOverride || f.scheme != LocalFile
  {
    assert f.scheme.LocalFile? || f.scheme in {S3, Globus, HTTP, HTTPS, FTP};
    f.remoteOverride || f.scheme in {S3, Globus, HTTP, HTTPS, FTP}
  }

  /**
   * The `is_dir` property: the override wins; without it, only an empty
   * path or one ending in '/' is a directory.
   */
  function IsDir(f: File): (r: bool)
    ensures f.dirOverride ==> r
    ensures !f.dirOverride ==> (r <==> f.pathObject == "" || f.pathObject[|f.pathObject| - 1] == '/')
  {
    f.dirOverride || PathIsDir(f.pathObject)
  }

  /** The `filepath` property. */
  function Filepath(f: File): (r: string)
    ensures f.includeFolder ==> !EndsWithSlash(r)
    ensures !f.includeFolder && IsDir(f) ==> EndsWithSlash(r)
    ensures !f.includeFolder && !IsDir(f) && NoDoubleSlash(f.pathObject) ==> r == f.pathObject
    ensures !f.includeFolder && IsDir(f) && NoDoubleSlash(f.pathObject) ==>
      r == if EndsWithSlash(f.pathObject) then f.pathObject else f.pathObject + "/"
    ensures f.includeFolder && NoDoubleSlash(f.pathObject) ==> r == RStripSlashes(f.pathObject)
    ensures NoDoubleSlash(r)
  {
    var p := if !f.includeFolder && IsDir(f) then f.pathObject + "/" else f.pathObject;
    var n := CollapseSlashes(p);
    assert !f.includeFolder && IsDir(f) && NoDoubleSlash(f.pathObject) ==>
      n == if EndsWithSlash(f.pathObject) then f.pathObject else f.pathObject + "/" by {
      if !f.includeFolder && IsDir(f) && NoDoubleSlash(f.pathObject) {
        CollapseAppendSlash(f.pathObject);
      }
    }
    if f.includeFolder then RStripSlashes(n) else n
  }

  /**
   * For a constructed file: it is remote exactly when the override was given
   * or its scheme is not `file`, and a directory exactly when the override was
   * given or its parsed path is one.
   */
  lemma {:induction false} ConstructedFlags(filepath: FilepathArg, id: string, isRemote: bool,
                                            isDir: bool, includeFolder: bool, parse: string -> ParsedUrl)
    requires NewFile(filepath, id, isRemote, isDir, includeFolder, parse).Success?
    ensures var f := NewFile(filepath, id, isRemote, isDir, includeFolder, parse).value;
            var u := parse(SourcePath(filepath, id).value);
            && (IsRemote(f) <==> isRemote || u.scheme !in {None, Some("file")})
            && (IsDir(f) <==> isDir || PathIsDir(u.path))
  {
  }
}
