/** From a rewritten artifact URL back to the upstream URL, through the npm and PyPI handlers. */
module Routing {
  import opened Verdicts
  import opened Text
  import opened Rewriting

  const SEPARATOR := "/-/"

  predicate SeparatorAt(s: string, k: nat) { k + 3 <= |s| && s[k] == '/' && s[k + 1] == '-' && s[k + 2] == '/' }

  /** The first separator at or after i. */
  function IndexFrom(s: string, i: nat): Option<nat>
    requires i <= |s|
    decreases |s| - i
  {
    if SeparatorAt(s, i) then Some(i) else if i == |s| then None else IndexFrom(s, i + 1)
  }

  lemma {:induction false} IndexIsFirst(s: string, i: nat)
    requires i <= |s|
    ensures var r := IndexFrom(s, i);
            && (r.Some? ==> i <= r.value && SeparatorAt(s, r.value))
            && (forall k :: i <= k && SeparatorAt(s, k) ==> r.Some? && r.value <= k)
    decreases |s| - i
  {
    if !SeparatorAt(s, i) && i < |s| { IndexIsFirst(s, i + 1); }
  }

  datatype Tarball = Tarball(name: string, file: string)

  /** The request under /npm/ is for a tarball when it holds the separator; the first one counts. */
  function SplitTarball(rest: string): Option<Tarball> {
    IndexIsFirst(rest, 0);
    match IndexFrom(rest, 0)
    case None => None
    case Some(i) => Some(Tarball(rest[..i], rest[i + 3..]))
  }

  /** The parts make up the request, and no separator comes before the one it was cut at. */
  lemma SplitTarballMeaning(rest: string)
    ensures match SplitTarball(rest)
            case None => forall k :: !SeparatorAt(rest, k)
            case Some(t) => rest == t.name + SEPARATOR + t.file && forall k :: SeparatorAt(rest, k) ==> |t.name| <= k
  {
    IndexIsFirst(rest, 0);
  }

  /** What a handler does with a request path: the URL it turns to upstream, or 404. */
  datatype Route = Packument(url: string) | ArtifactAt(name: string, version: string, url: string) | NotFound

  function NPMVersion(name: string, file: string): string {
    TrimPrefix(TrimSuffix(file, ".tgz"), LastPart(name, '/') + "-")
  }

  function NPMRoute(path: string, upstream: string): Route {
    var rest := TrimPrefix(path, "/npm/");
    if rest == "" then NotFound
    else
      match SplitTarball(rest)
      case Some(t) => ArtifactAt(t.name, NPMVersion(t.name, t.file), upstream + "/" + t.name + "/-/" + t.file)
      case None => Packument(upstream + "/" + rest)
  }

  /** The path a client asks the proxy for, given a URL at the proxy without percent escapes. */
  function PathAt(publicURL: string, url: string): string { TrimPrefix(url, publicURL) }

  lemma RepointedPath(upstream: string, publicURL: string, mount: string, rest: string)
    ensures var url := upstream + "/" + rest;
            PathAt(publicURL, Repointed(url, upstream + "/", publicURL + mount)) == mount + rest
    ensures TrimPrefix(mount + rest, mount) == rest
  {
    var url := upstream + "/" + rest;
    assert url[..|upstream| + 1] == upstream + "/" && url[|upstream| + 1..] == rest;
    var there := publicURL + mount + rest;
    assert there[..|publicURL|] == publicURL && there[|publicURL|..] == mount + rest;
    assert (mount + rest)[..|mount|] == mount && (mount + rest)[|mount|..] == rest;
  }

  lemma RouteURL(upstream: string, rest: string)
    requires rest != "" && TrimPrefix("/npm/" + rest, "/npm/") == rest
    ensures var r := NPMRoute("/npm/" + rest, upstream); !r.NotFound? && r.url == upstream + "/" + rest
  {
    SplitTarballMeaning(rest);
    if SplitTarball(rest).Some? {
      var t := SplitTarball(rest).value;
      assert upstream + "/" + t.name + "/-/" + t.file == upstream + "/" + (t.name + SEPARATOR + t.file);
    }
  }

  /**
   Rewriting, then routing: for every URL below the npm upstream the handler turns to exactly that
   URL, as a tarball when it holds "/-/" and as a document otherwise.
  */
  lemma NPMRoundTrip(upstream: string, publicURL: string, rest: string)
    requires rest != ""
    ensures var url := upstream + "/" + rest;
            var r := NPMRoute(PathAt(publicURL, Repointed(url, upstream + "/", publicURL + "/npm/")), upstream);
            && !r.NotFound? && r.url == url
            && (r.ArtifactAt? <==> exists k :: SeparatorAt(rest, k))
  {
    RepointedPath(upstream, publicURL, "/npm/", rest);
    RouteURL(upstream, rest);
    SplitTarballMeaning(rest);
    IndexIsFirst(rest, 0);
  }

  /** The version comes back from the file name npm forms, for scoped and unscoped names alike. */
  lemma NPMVersionRecovered(name: string, version: string)
    ensures NPMVersion(name, LastPart(name, '/') + "-" + version + ".tgz") == version
  {
    var head := LastPart(name, '/') + "-";
    var file := head + version + ".tgz";
    assert file[|file| - 4..] == ".tgz" && file[..|file| - 4] == head + version;
    assert (head + version)[..|head|] == head && (head + version)[|head|..] == version;
  }

  // ---- PyPI ----

  datatype PypiFile = PypiFile(filename: string, url: string, hashes: map<string, string>, requiresPython: string)

  class PypiProject {
    const name: string
    const files: array<PypiFile>

    constructor (name: string, files: array<PypiFile>)
      ensures this.name == name && this.files == files
    {
      this.name := name;
      this.files := files;
    }

    /** Every file URL below the upstream is repointed in place; nothing else of any file changes. */
    method RewriteFileURLs(filesUpstream: string, publicURL: string)
      modifies files
      ensures forall i :: 0 <= i < files.Length ==>
                files[i] == old(files[i]).(url := Repointed(old(files[i]).url, filesUpstream + "/", publicURL + "/pypi/files/"))
    {
      var upstream, proxy := filesUpstream + "/", publicURL + "/pypi/files/";
      for i := 0 to files.Length
        invariant forall k :: 0 <= k < i ==> files[k] == old(files[k]).(url := Repointed(old(files[k]).url, upstream, proxy))
        invariant forall k :: i <= k < files.Length ==> files[k] == old(files[k])
      {
        if HasPrefix(files[i].url, upstream) {
          files[i] := files[i].(url := proxy + TrimPrefix(files[i].url, upstream));
        }
      }
    }
  }

  /** A wheel is name-version-tags.whl, a source archive name-version.tar.gz. */
  function NameVersion(filename: string): (string, string) {
    if HasSuffix(filename, ".whl") then
      var parts := Split(TrimSuffix(filename, ".whl"), '-');
      if |parts| >= 2 then (parts[0], parts[1]) else (TrimSuffix(filename, ".whl"), "")
    else if HasSuffix(filename, ".tar.gz") then
      var base := TrimSuffix(filename, ".tar.gz");
      var parts := Split(base, '-');
      if |parts| >= 2 then (Join(parts[..|parts| - 1], '-'), parts[|parts| - 1]) else (base, "")
    else (filename, "")
  }

  function PyPIRoute(path: string, filesUpstream: string): Route {
    var rest := TrimPrefix(path, "/pypi/files/");
    if rest == "" then NotFound
    else
      var (name, version) := NameVersion(LastPart(rest, '/'));
      ArtifactAt(name, version, filesUpstream + "/" + rest)
  }

  lemma PyPIRoundTrip(filesUpstream: string, publicURL: string, rest: string)
    requires rest != ""
    ensures var url := filesUpstream + "/" + rest;
            var r := PyPIRoute(PathAt(publicURL, Repointed(url, filesUpstream + "/", publicURL + "/pypi/files/")), filesUpstream);
            r.ArtifactAt? && r.url == url
  {
    RepointedPath(filesUpstream, publicURL, "/pypi/files/", rest);
  }

  /** A source archive's label is right exactly when the version has no hyphen. */
  lemma SdistLabelIff(name: string, version: string)
    ensures NameVersion(name + "-" + version + ".tar.gz") == (name, version) <==> '-' !in version
  {
    var base := name + ['-'] + version;
    var filename := name + "-" + version + ".tar.gz";
    assert filename[|filename| - 7..] == ".tar.gz" && filename[..|filename| - 7] == base;
    assert filename[|filename| - 1] == 'z';
    SplitBoth(name, version, '-');
    var parts := Split(base, '-');
    if '-' !in version {
      SplitPlain(version, '-');
      assert parts[..|parts| - 1] == Split(name, '-');
      JoinSplit(name, '-');
    } else {
      SplitPieces(base, '-');
      assert '-' !in parts[|parts| - 1];
    }
  }

  /** A wheel's label is right exactly when neither its name nor its version has a hyphen. */
  lemma WheelLabelIff(name: string, version: string, tags: string)
    ensures NameVersion(name + "-" + version + "-" + tags + ".whl") == (name, version) <==> '-' !in name && '-' !in version
  {
    var rest := version + ['-'] + tags;
    var base := name + ['-'] + rest;
    var filename := name + "-" + version + "-" + tags + ".whl";
    assert filename == base + ".whl";
    assert filename[|filename| - 4..] == ".whl" && filename[..|filename| - 4] == base;
    SplitBoth(name, rest, '-');
    SplitBoth(version, tags, '-');
    SplitPieces(base, '-');
    if '-' !in name && '-' !in version {
      SplitPlain(name, '-');
      SplitPlain(version, '-');
    }
  }
}
