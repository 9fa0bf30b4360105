/** Where a plugin's module bytes come from: classification of the configured path, the
    registry cache file name, and the acquisition pipeline over I/O oracles
    (`PluginService::load_plugins`, src/plugins.rs). */
module Sources {
  import opened Basics

  predicate StartsWith(s: string, prefix: string) {
    |prefix| <= |s| && s[..|prefix|] == prefix
  }

  const HttpPrefix := "http"
  const OciPrefix := "oci"
  const OciScheme := "oci://"
  /** The one file extracted from a registry artifact. */
  const TargetFilePath := "/plugin.wasm"
  /** The directory under the platform cache directory that holds registry downloads. */
  const CacheSubdir := "hyper-mcp"
  /** How many leading hex digits of the reference's digest go into the cache file name. */
  const ShortHashLength := 7

  predicate IsLowerHexDigit(c: char) {
    '0' <= c <= '9' || 'a' <= c <= 'f'
  }

  /** A SHA-256 digest in lower-case hex, as `hex::encode` renders it. */
  type HexDigest = s: string | |s| == 64 && forall i | 0 <= i < |s| :: IsLowerHexDigit(s[i])
    witness seq(64, _ => '0')

  /** The three kinds of plugin source, each carrying what its fetch step needs. */
  datatype Source = HttpUrl(url: string) | Registry(reference: string) | LocalPath(path: string)

  /** Everything that can stop the acquisition of one plugin's bytes. */
  datatype AcquireError =
    | HttpFailed(url: string, cause: string)
    | ReadFailed(path: string, cause: string)
      /** `strip_prefix("oci://").unwrap()` on a path that starts with "oci" but not "oci://" */
    | NotAnOciReference(path: string)
      /** `dirs::cache_dir().unwrap()` on a platform without a cache directory */
    | NoCacheDir
    | CacheDirFailed(dir: string, cause: string)
    | PullFailed(reference: string, cause: string)

  /** What is asked of the registry client: pull `reference`, extract `targetFile` from it into
      `outputPath`, checking the artifact's signature first when `verifySignature` holds. */
  datatype PullRequest = PullRequest(
    reference: string,
    targetFile: string,
    outputPath: string,
    verifySignature: bool)

  /** The I/O the acquisition pipeline depends on, as given results. */
  datatype Fetcher = Fetcher(
    httpGet: string -> Result<Bytes, string>,
    readFile: string -> Result<Bytes, string>,
    cacheBase: Option<string>,
    createDirAll: string -> Result<(), string>,
    sha256Hex: string -> HexDigest,
    pullAndExtract: PullRequest -> Result<(), string>)

  /** A path carrying the registry scheme passes the "oci" test and fails the "http" test. */
  lemma SchemeImpliesOci(path: string)
    ensures StartsWith(path, OciScheme) ==> StartsWith(path, OciPrefix) && !StartsWith(path, HttpPrefix)
  {
    if StartsWith(path, OciScheme) {
      assert path[..|OciPrefix|] == path[..|OciScheme|][..|OciPrefix|];
      assert path[0] == 'o';
      assert path[..|HttpPrefix|][0] == 'o';
    }
  }

  /** Classifies a configured plugin path. The "http" test comes first; a path that then starts
      with "oci" must carry the full "oci://" scheme, which is stripped to give the reference. */
  function ParseSource(path: string): (r: Result<Source, AcquireError>)
    ensures StartsWith(path, HttpPrefix) ==> r.Ok?
    ensures r.Ok? ==> (r.value.HttpUrl? <==> StartsWith(path, HttpPrefix))
    ensures r.Ok? ==> (r.value.Registry? <==> StartsWith(path, OciScheme))
  {
    SchemeImpliesOci(path);
    if StartsWith(path, HttpPrefix) then Ok(HttpUrl(path))
    else if StartsWith(path, OciPrefix) then
      if StartsWith(path, OciScheme) then Ok(Registry(path[|OciScheme|..]))
      else Err(NotAnOciReference(path))
    else Ok(LocalPath(path))
  }

  /** The configuration path a source was read from. */
  function SourcePath(src: Source): string {
    match src
    case HttpUrl(url) => url
    case Registry(reference) => OciScheme + reference
    case LocalPath(path) => path
  }

  /** The sources a configuration path can denote: each kind only under its own prefix. */
  predicate WellFormed(src: Source) {
    match src
    case HttpUrl(url) => StartsWith(url, HttpPrefix)
    case Registry(_) => true
    case LocalPath(path) => !StartsWith(path, HttpPrefix) && !StartsWith(path, OciPrefix)
  }

  /** Classification loses nothing: a classified path is exactly the path of its source. */
  lemma ParseSourceLossless(path: string)
    requires ParseSource(path).Ok?
    ensures WellFormed(ParseSource(path).value)
    ensures SourcePath(ParseSource(path).value) == path
  {
  }

  /** The only paths that cannot be classified are those the registry test takes without the
      full scheme; they are rejected as they are. */
  lemma ParseSourceRejects(path: string)
    ensures ParseSource(path).Err? <==>
              !StartsWith(path, HttpPrefix) && StartsWith(path, OciPrefix) && !StartsWith(path, OciScheme)
    ensures ParseSource(path).Err? ==> ParseSource(path).error == NotAnOciReference(path)
  {
  }

  /** Conversely, every well-formed source is recovered from its path. */
  lemma ParseSourcePathRoundTrip(src: Source)
    requires WellFormed(src)
    ensures ParseSource(SourcePath(src)) == Ok(src)
  {
  }

  /** A path like "oci-tools.wasm" names neither a URL nor a registry reference nor a local
      file: the registry branch takes it and the missing "oci://" scheme stops the load. */
  lemma OciPrefixWithoutScheme()
    ensures ParseSource("oci-tools.wasm") == Err(NotAnOciReference("oci-tools.wasm"))
  {
    assert !StartsWith("oci-tools.wasm", HttpPrefix) by {
      assert "oci-tools.wasm"[..4][0] == 'o';
    }
    assert StartsWith("oci-tools.wasm", OciPrefix) by {
      assert "oci-tools.wasm"[..3] == "oci";
    }
    assert !StartsWith("oci-tools.wasm", OciScheme) by {
      assert "oci-tools.wasm"[..6][3] == '-';
    }
  }

  /** The directory registry downloads are cached in, under the platform cache directory. */
  function CacheDir(base: string): string {
    base + "/" + CacheSubdir
  }

  /** `<name>-<first 7 hex digits of SHA-256(reference)>.wasm` */
  function CacheFileName(name: string, reference: string, sha256Hex: string -> HexDigest): (f: string)
    ensures |f| == |name| + 1 + ShortHashLength + 5
    ensures f[..|name|] == name && f[|name|] == '-'
    ensures f[|name| + 1..|name| + 1 + ShortHashLength] == sha256Hex(reference)[..ShortHashLength]
    ensures forall i | |name| + 1 <= i < |name| + 1 + ShortHashLength :: IsLowerHexDigit(f[i])
    ensures f[|name| + 1 + ShortHashLength..] == ".wasm"
  {
    name + "-" + sha256Hex(reference)[..ShortHashLength] + ".wasm"
  }

  /** Two plugins get the same cache file name only if they have the same name and their
      references' digests agree on the short prefix; distinct names never give the same name. */
  lemma CacheFileNameInjective(name1: string, ref1: string, name2: string, ref2: string,
                               sha256Hex: string -> HexDigest)
    requires CacheFileName(name1, ref1, sha256Hex) == CacheFileName(name2, ref2, sha256Hex)
    ensures name1 == name2
    ensures sha256Hex(ref1)[..ShortHashLength] == sha256Hex(ref2)[..ShortHashLength]
  {
  }

  /** The registry request made for plugin `name`: the reference, the fixed target file, the
      cache path, and signature verification exactly when it is not explicitly skipped. */
  function PullRequestFor(name: string, reference: string, dir: string, skipSignature: bool,
                          sha256Hex: string -> HexDigest): (req: PullRequest)
    ensures req.verifySignature <==> !skipSignature
    ensures req.reference == reference && req.targetFile == TargetFilePath
    ensures StartsWith(req.outputPath, dir + "/")
    ensures req.outputPath[|dir| + 1..] == CacheFileName(name, reference, sha256Hex)
  {
    PullRequest(reference, TargetFilePath, dir + "/" + CacheFileName(name, reference, sha256Hex), !skipSignature)
  }

  function ReadBytes(fetch: Fetcher, path: string): Result<Bytes, AcquireError> {
    match fetch.readFile(path)
    case Ok(bytes) => Ok(bytes)
    case Err(cause) => Err(ReadFailed(path, cause))
  }

  /** The module bytes of plugin `name` configured at `path`. */
  function Acquire(name: string, path: string, skipSignature: bool, fetch: Fetcher): (r: Result<Bytes, AcquireError>)
    ensures ParseSource(path).Err? ==> r == Err(ParseSource(path).error)
    ensures ParseSource(path) == Ok(HttpUrl(path)) ==>
              (r.Ok? <==> fetch.httpGet(path).Ok?) && (r.Ok? ==> r.value == fetch.httpGet(path).value)
    ensures ParseSource(path) == Ok(LocalPath(path)) ==>
              (r.Ok? <==> fetch.readFile(path).Ok?) && (r.Ok? ==> r.value == fetch.readFile(path).value)
  {
    var source :- ParseSource(path);
    match source
    case HttpUrl(url) =>
      (match fetch.httpGet(url)
       case Ok(bytes) => Ok(bytes)
       case Err(cause) => Err(HttpFailed(url, cause)))
    case Registry(reference) =>
      (match fetch.cacheBase
       case None => Err(NoCacheDir)
       case Some(base) =>
         var dir := CacheDir(base);
         match fetch.createDirAll(dir)
         case Err(cause) => Err(CacheDirFailed(dir, cause))
         case Ok(_) =>
           var req := PullRequestFor(name, reference, dir, skipSignature, fetch.sha256Hex);
           match fetch.pullAndExtract(req)
           case Err(cause) => Err(PullFailed(reference, cause))
           case Ok(_) => ReadBytes(fetch, req.outputPath))
    case LocalPath(p) => ReadBytes(fetch, p)
  }

  /** A registry plugin without a platform cache directory, or whose cache directory cannot be
      created, fails before anything is pulled. Otherwise the registry is asked for the
      reference, extracting the fixed target file into the plugin's cache file, with the
      signature verified exactly when verification is not skipped; a failed pull is an error
      carrying the registry's cause, and the bytes are those read back from the cache file. */
  lemma RegistryAcquisition(name: string, reference: string, skipSignature: bool, fetch: Fetcher)
    ensures var r := Acquire(name, OciScheme + reference, skipSignature, fetch);
            && (fetch.cacheBase.None? ==> r == Err(NoCacheDir))
            && (fetch.cacheBase.Some? && fetch.createDirAll(CacheDir(fetch.cacheBase.value)).Err? ==>
                  r == Err(CacheDirFailed(CacheDir(fetch.cacheBase.value),
                                          fetch.createDirAll(CacheDir(fetch.cacheBase.value)).error)))
    ensures fetch.cacheBase.Some? && fetch.createDirAll(CacheDir(fetch.cacheBase.value)).Ok? ==>
              var out := CacheDir(fetch.cacheBase.value) + "/" + CacheFileName(name, reference, fetch.sha256Hex);
              var pulled := fetch.pullAndExtract(PullRequest(reference, TargetFilePath, out, !skipSignature));
              var r := Acquire(name, OciScheme + reference, skipSignature, fetch);
              && (pulled.Err? ==> r == Err(PullFailed(reference, pulled.error)))
              && (r.Ok? <==> pulled.Ok? && fetch.readFile(out).Ok?)
              && (r.Ok? ==> fetch.readFile(out) == Ok(r.value))
  {
  }

  /** The cache file depends only on the plugin's name and reference: reloading a registry
      plugin reads back the same file, whether or not its signature was checked. */
  lemma CachePathStable(name: string, reference: string, skip1: bool, skip2: bool, fetch1: Fetcher, fetch2: Fetcher)
    requires fetch1.cacheBase == fetch2.cacheBase
    requires fetch1.sha256Hex == fetch2.sha256Hex && fetch1.readFile == fetch2.readFile
    requires Acquire(name, OciScheme + reference, skip1, fetch1).Ok?
    requires Acquire(name, OciScheme + reference, skip2, fetch2).Ok?
    ensures Acquire(name, OciScheme + reference, skip1, fetch1) == Acquire(name, OciScheme + reference, skip2, fetch2)
  {
    RegistryAcquisition(name, reference, skip1, fetch1);
    RegistryAcquisition(name, reference, skip2, fetch2);
  }
}
