/**
 * Turning artifacts into the file URIs handed to the generator: the per
 * artifact rule shared by every mojo variant, the URI set a sequence of
 * artifacts yields, the warnings and errors logged on the way, and the loop
 * of the OSGi-era variants.
 */
module Classpath {
  import opened Wrappers
  import opened JavaFile
  import opened Maven

  /** The external form of a file URL. */
  type Uri = string

  /**
   * What `file.toURI().toURL().toExternalForm()` gives for one artifact:
   * the URI, no file at all, or a MalformedURLException for the file.
   */
  datatype Resolution = Located(uri: Uri) | NoFile | Malformed(file: Path)

  /** What the mojos log while assembling the class path (info messages are not modelled). */
  datatype Diagnostic =
    | MissingFile(artifact: Artifact)  // warn: the location is unspecified
    | MalformedUrl(file: Path)         // error: the MalformedURLException
    | ProjectNotAdded                  // warn: the current project could not be added

  /** The URL conversion applied to an artifact's file; `toUrl` is None where it throws. */
  function ResolveArtifact(a: Artifact, toUrl: Path -> Option<Uri>): (r: Resolution)
    ensures r.Located? <==> a.file.Some? && toUrl(a.file.value).Some?
    ensures r.Located? ==> Some(r.uri) == toUrl(a.file.value)
    ensures r.NoFile? <==> a.file.None?
  {
    match a.file
    case None => NoFile
    case Some(f) =>
      match toUrl(f)
      case Some(u) => Located(u)
      case None => Malformed(f)
  }

  function Contributed(r: Resolution): (s: set<Uri>)
    ensures |s| <= 1
  {
    if r.Located? then {r.uri} else {}
  }

  /** The URIs a sequence of artifacts puts into the HashSet. */
  function UrisOf(arts: seq<Artifact>, toUrl: Path -> Option<Uri>): (r: set<Uri>)
    decreases |arts|
  {
    if arts == [] then {}
    else UrisOf(arts[..|arts| - 1], toUrl) + Contributed(ResolveArtifact(arts[|arts| - 1], toUrl))
  }

  /**
   * What is logged for one artifact: an error for a malformed URL and, when
   * `warnMissingFile` holds, a warning for an artifact without a file.
   */
  function Report(a: Artifact, r: Resolution, warnMissingFile: bool): (log: seq<Diagnostic>) {
    match r
    case Located(_) => []
    case NoFile => if warnMissingFile then [MissingFile(a)] else []
    case Malformed(f) => [MalformedUrl(f)]
  }

  /** The log of a loop over `arts`, in iteration order. */
  function DiagnosticsOf(arts: seq<Artifact>, toUrl: Path -> Option<Uri>, warnMissingFile: bool): (log: seq<Diagnostic>)
    decreases |arts|
  {
    if arts == [] then []
    else
      var a := arts[|arts| - 1];
      DiagnosticsOf(arts[..|arts| - 1], toUrl, warnMissingFile) + Report(a, ResolveArtifact(a, toUrl), warnMissingFile)
  }

  /** One more artifact adds what it contributes to the set and what it reports to the log. */
  lemma ArtifactStep(arts: seq<Artifact>, i: nat, toUrl: Path -> Option<Uri>, warnMissingFile: bool)
    requires i < |arts|
    ensures UrisOf(arts[..i + 1], toUrl) == UrisOf(arts[..i], toUrl) + Contributed(ResolveArtifact(arts[i], toUrl))
    ensures DiagnosticsOf(arts[..i + 1], toUrl, warnMissingFile)
         == DiagnosticsOf(arts[..i], toUrl, warnMissingFile) + Report(arts[i], ResolveArtifact(arts[i], toUrl), warnMissingFile)
  {
    assert arts[..i + 1][..i] == arts[..i];
  }

  /**
   * The loop of the OSGi-era getProjectArtifactsPath: an artifact with a
   * file adds its URI (or logs the MalformedURLException), one without a file
   * is skipped with a warning.
   */
  method CollectArtifactUris(artifacts: seq<Artifact>, toUrl: Path -> Option<Uri>)
    returns (paths: set<Uri>, log: seq<Diagnostic>)
    ensures paths == UrisOf(artifacts, toUrl)
    ensures log == DiagnosticsOf(artifacts, toUrl, true)
  {
    paths, log := {}, [];
    for i := 0 to |artifacts|
      invariant paths == UrisOf(artifacts[..i], toUrl)
      invariant log == DiagnosticsOf(artifacts[..i], toUrl, true)
    {
      var artifact := artifacts[i];
      assert artifacts[..i + 1][..i] == artifacts[..i];
      match artifact.file {
        case Some(artifactFile) =>
          match toUrl(artifactFile) {
            case Some(uri) => paths := paths + {uri};
            case None => log := log + [MalformedUrl(artifactFile)];
          }
        case None =>
          log := log + [MissingFile(artifact)];
      }
    }
    assert artifacts[..|artifacts|] == artifacts;
  }

  /**
   * A URI is in the set exactly when some artifact has a file whose URL
   * converts to it: artifacts without a file, or with a malformed URL,
   * contribute nothing.
   */
  lemma {:induction false} UrisOfMembership(arts: seq<Artifact>, toUrl: Path -> Option<Uri>, u: Uri)
    ensures u in UrisOf(arts, toUrl) <==> exists a :: a in arts && ResolveArtifact(a, toUrl) == Located(u)
    decreases |arts|
  {
    if arts != [] {
      var init, last := arts[..|arts| - 1], arts[|arts| - 1];
      UrisOfMembership(init, toUrl, u);
      assert arts == init + [last];
      if u in UrisOf(arts, toUrl) && u !in UrisOf(init, toUrl) {
        assert last in arts && ResolveArtifact(last, toUrl) == Located(u);
      }
      if a :| a in arts && ResolveArtifact(a, toUrl) == Located(u) {
        if a != last {
          assert a in init;
        }
      }
    }
  }

  /** No more URIs than artifacts (the HashSet can only shrink the count). */
  lemma {:induction false} UrisOfSize(arts: seq<Artifact>, toUrl: Path -> Option<Uri>)
    ensures |UrisOf(arts, toUrl)| <= |arts|
    decreases |arts|
  {
    if arts != [] {
      var init := arts[..|arts| - 1];
      UrisOfSize(init, toUrl);
      var c := Contributed(ResolveArtifact(arts[|arts| - 1], toUrl));
      assert |c| <= 1;
      assert |UrisOf(init, toUrl) + c| <= |UrisOf(init, toUrl)| + |c|;
    }
  }

  /** The iteration order of the artifact Set does not change the result. */
  lemma UrisOfIgnoresOrder(a: seq<Artifact>, b: seq<Artifact>, toUrl: Path -> Option<Uri>)
    requires multiset(a) == multiset(b)
    ensures UrisOf(a, toUrl) == UrisOf(b, toUrl)
  {
    forall u ensures u in UrisOf(a, toUrl) <==> u in UrisOf(b, toUrl) {
      UrisOfMembership(a, toUrl, u);
      UrisOfMembership(b, toUrl, u);
      forall x ensures x in a <==> x in b {
        assert x in a <==> x in multiset(a);
        assert x in b <==> x in multiset(b);
      }
    }
  }

  /** The URIs of a concatenation are the union of the parts' URIs. */
  lemma {:induction false} UrisOfAppend(a: seq<Artifact>, b: seq<Artifact>, toUrl: Path -> Option<Uri>)
    ensures UrisOf(a + b, toUrl) == UrisOf(a, toUrl) + UrisOf(b, toUrl)
    decreases |b|
  {
    if b == [] {
      assert a + b == a;
    } else {
      var init := b[..|b| - 1];
      UrisOfAppend(a, init, toUrl);
      assert (a + b)[..|a + b| - 1] == a + init;
    }
  }

  /**
   * With warnings on, an artifact is reported as missing exactly when it
   * occurs without a file; with warnings off it never is.
   */
  lemma {:induction false} MissingFileReported(arts: seq<Artifact>, toUrl: Path -> Option<Uri>, warnMissingFile: bool, x: Artifact)
    ensures MissingFile(x) in DiagnosticsOf(arts, toUrl, warnMissingFile) <==> warnMissingFile && x in arts && x.file.None?
    decreases |arts|
  {
    if arts != [] {
      var init, last := arts[..|arts| - 1], arts[|arts| - 1];
      MissingFileReported(init, toUrl, warnMissingFile, x);
      assert arts == init + [last];
      assert x in arts <==> x in init || x == last;
    }
  }
}
