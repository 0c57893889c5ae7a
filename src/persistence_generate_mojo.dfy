/**
 * org.everit.persistence.lqmg.maven.GenerateMojo: the newest variant. The
 * class path holds the URIs of the dependency artifacts and, for the current
 * project, either its packaged artifact or, failing that, its build output
 * directory when that exists.
 */
module PersistenceGenerateMojo {
  import opened Wrappers
  import opened JavaFile
  import opened JavaString
  import opened Maven
  import opened Classpath
  import opened GenerationFolders

  /** The mojo's user-facing parameters; a nullable String is an Option. */
  datatype Config = Config(
    capability: string,
    configFile: Option<string>,
    contexts: Option<string>,
    defaultSchema: Option<string>,
    hackWires: bool,
    innerClassesForKeys: bool,
    outputFolder: string,
    packages: Option<string>)

  /** org.everit.persistence.lqmg.GenerationProperties as the mojo fills it. */
  datatype GenerationProperties = GenerationProperties(
    capability: string,
    artifactsPath: set<Uri>,
    generationFolder: Path,
    configurationPath: Setting<Option<string>>,
    defaultSchema: Setting<Option<string>>,
    hackWires: Setting<bool>,
    innerClassesForKeys: Setting<bool>,
    contexts: Setting<Option<string>>,
    packages: Setting<seq<string>>)

  /**
   * resolveArtifactFileURI: the URI of the artifact's file, or null when it
   * has no file or its URL is malformed (the latter logged as an error).
   */
  method ResolveArtifactFileUri(artifact: Artifact, toUrl: Path -> Option<Uri>)
    returns (uri: Option<Uri>, log: seq<Diagnostic>)
    ensures uri.Some? <==> artifact.file.Some? && toUrl(artifact.file.value).Some?
    ensures uri.Some? ==> uri == toUrl(artifact.file.value)
    ensures log == (if artifact.file.Some? && uri.None? then [MalformedUrl(artifact.file.value)] else [])
    ensures Contributed(ResolveArtifact(artifact, toUrl)) == (if uri.Some? then {uri.value} else {})
    ensures log == Report(artifact, ResolveArtifact(artifact, toUrl), false)
  {
    uri, log := None, [];
    var artifactFile := artifact.file;
    if artifactFile.Some? {
      match toUrl(artifactFile.value) {
        case Some(u) => return Some(u), [];
        case None => log := [MalformedUrl(artifactFile.value)];
      }
    }
  }

  /**
   * What the current project adds for itself: its artifact's URI when that
   * resolves, otherwise the build output directory's URI when the directory
   * exists and its URL is well formed, otherwise nothing.
   */
  function SelfUris(project: MavenProject, dirExists: Path -> bool, toUrl: Path -> Option<Uri>): (self: set<Uri>) {
    match ResolveArtifact(project.artifact, toUrl)
    case Located(u) => {u}
    case _ =>
      var buildDirectory := Normalize(project.outputDirectory);
      if dirExists(buildDirectory) && toUrl(buildDirectory).Some? then {toUrl(buildDirectory).value} else {}
  }

  /** The set getProjectArtifactsPath converts to its result array. */
  function ArtifactsPath(project: MavenProject, dirExists: Path -> bool, toUrl: Path -> Option<Uri>): (paths: set<Uri>) {
    UrisOf(project.artifacts, toUrl) + SelfUris(project, dirExists, toUrl)
  }

  /** What is logged while the current project is handled. */
  function SelfDiagnostics(project: MavenProject, dirExists: Path -> bool, toUrl: Path -> Option<Uri>): (log: seq<Diagnostic>) {
    var own := match ResolveArtifact(project.artifact, toUrl)
      case Malformed(f) => [MalformedUrl(f)]
      case _ => [];
    if ResolveArtifact(project.artifact, toUrl).Located? then own
    else
      var buildDirectory := Normalize(project.outputDirectory);
      if !dirExists(buildDirectory) then own + [ProjectNotAdded]
      else if toUrl(buildDirectory).None? then own + [MalformedUrl(buildDirectory)]
      else own
  }

  /**
   * getProjectArtifactsPath: the URIs of the dependencies that resolve,
   * plus what the current project adds for itself; never more than one
   * entry per dependency and one for the project.
   */
  method GetProjectArtifactsPath(project: MavenProject, dirExists: Path -> bool, toUrl: Path -> Option<Uri>)
    returns (paths: set<Uri>, log: seq<Diagnostic>)
    ensures paths == ArtifactsPath(project, dirExists, toUrl)
    ensures log == DiagnosticsOf(project.artifacts, toUrl, false) + SelfDiagnostics(project, dirExists, toUrl)
  {
    paths, log := {}, [];
    var dependencyArtifacts := project.artifacts;
    for i := 0 to |dependencyArtifacts|
      invariant paths == UrisOf(dependencyArtifacts[..i], toUrl)
      invariant log == DiagnosticsOf(dependencyArtifacts[..i], toUrl, false)
    {
      ArtifactStep(dependencyArtifacts, i, toUrl, false);
      var artifactFileUri, errors := ResolveArtifactFileUri(dependencyArtifacts[i], toUrl);
      log := log + errors;
      if artifactFileUri.Some? {
        paths := paths + {artifactFileUri.value};
      }
    }
    assert dependencyArtifacts[..|dependencyArtifacts|] == dependencyArtifacts;
    var self, selfLog := ProjectOwnUris(project, dirExists, toUrl);
    paths, log := paths + self, log + selfLog;
  }

  /**
   * The second half of getProjectArtifactsPath: the project's packaged
   * artifact if it resolves, otherwise its build directory if that exists
   * and converts to a URL, with a warning when it does not exist.
   */
  method ProjectOwnUris(project: MavenProject, dirExists: Path -> bool, toUrl: Path -> Option<Uri>)
    returns (self: set<Uri>, log: seq<Diagnostic>)
    ensures self == SelfUris(project, dirExists, toUrl)
    ensures log == SelfDiagnostics(project, dirExists, toUrl)
  {
    var projectArtifactUri, errors := ResolveArtifactFileUri(project.artifact, toUrl);
    self, log := {}, errors;
    if projectArtifactUri.Some? {
      self := {projectArtifactUri.value};
    } else {
      var buildDirectory := Normalize(project.outputDirectory);
      if dirExists(buildDirectory) {
        match toUrl(buildDirectory) {
          case Some(buildDirectoryUri) =>
            self := {buildDirectoryUri};
          case None =>
            log := log + [MalformedUrl(buildDirectory)];
        }
      } else {
        log := log + [ProjectNotAdded];
      }
    }
  }

  /**
   * The class path holds exactly the URIs of the resolvable dependencies and
   * what the project adds for itself, and has at most one entry per
   * dependency plus one.
   */
  lemma ArtifactsPathContents(project: MavenProject, dirExists: Path -> bool, toUrl: Path -> Option<Uri>)
    ensures forall u :: u in ArtifactsPath(project, dirExists, toUrl) <==>
      (exists a :: a in project.artifacts && ResolveArtifact(a, toUrl) == Located(u)) || u in SelfUris(project, dirExists, toUrl)
    ensures |ArtifactsPath(project, dirExists, toUrl)| <= |project.artifacts| + 1
  {
    forall u ensures u in ArtifactsPath(project, dirExists, toUrl) <==>
      (exists a :: a in project.artifacts && ResolveArtifact(a, toUrl) == Located(u)) || u in SelfUris(project, dirExists, toUrl)
    {
      UrisOfMembership(project.artifacts, toUrl, u);
    }
    UrisOfSize(project.artifacts, toUrl);
    ProjectArtifactOrBuildDirectory(project, dirExists, toUrl, dirExists, project.outputDirectory);
    var deps, self := UrisOf(project.artifacts, toUrl), SelfUris(project, dirExists, toUrl);
    assert |deps + self| <= |deps| + |self|;
  }

  /**
   * The project contributes at most one URI: its packaged artifact or its
   * build directory, never both; and when its artifact resolves, neither the
   * build directory nor its existence is consulted.
   */
  lemma ProjectArtifactOrBuildDirectory(project: MavenProject, dirExists: Path -> bool, toUrl: Path -> Option<Uri>,
                                        otherDirExists: Path -> bool, otherOutputDirectory: string)
    ensures |SelfUris(project, dirExists, toUrl)| <= 1
    ensures ResolveArtifact(project.artifact, toUrl).Located? ==>
      SelfUris(project, dirExists, toUrl) == {ResolveArtifact(project.artifact, toUrl).uri}
      == SelfUris(project.(outputDirectory := otherOutputDirectory), otherDirExists, toUrl)
  {
  }

  /**
   * When the project artifact does not resolve, the build directory's URI is
   * added if and only if the directory exists (and its URL is well formed);
   * a missing directory is reported with a warning.
   */
  lemma BuildDirectoryFallback(project: MavenProject, dirExists: Path -> bool, toUrl: Path -> Option<Uri>, u: Uri)
    requires !ResolveArtifact(project.artifact, toUrl).Located?
    ensures u in SelfUris(project, dirExists, toUrl) <==>
      dirExists(Normalize(project.outputDirectory)) && toUrl(Normalize(project.outputDirectory)) == Some(u)
    ensures ProjectNotAdded in SelfDiagnostics(project, dirExists, toUrl) <==> !dirExists(Normalize(project.outputDirectory))
  {
  }

  /**
   * Nothing resolvable and no build directory: the class path is empty (and
   * no exception is raised, the method has no failure outcome).
   */
  lemma EmptyClassPath(project: MavenProject, dirExists: Path -> bool, toUrl: Path -> Option<Uri>)
    requires forall a :: a in project.artifacts ==> a.file.None?
    requires project.artifact.file.None?
    requires !dirExists(Normalize(project.outputDirectory))
    ensures ArtifactsPath(project, dirExists, toUrl) == {}
  {
    forall u ensures u !in UrisOf(project.artifacts, toUrl) {
      UrisOfMembership(project.artifacts, toUrl, u);
    }
  }

  /**
   * execute: chooses the generation folder, assembles the class path,
   * copies the options into the generation properties (`packages` only when
   * non-null and not blank, split on commas without trimming) and always
   * invokes the generator once.
   */
  method Execute(cfg: Config, project: MavenProject, cwd: Path,
                 dirExists: Path -> bool, toUrl: Path -> Option<Uri>)
    returns (params: GenerationProperties, generated: seq<GenerationProperties>, log: seq<Diagnostic>)
    ensures params.capability == cfg.capability
    ensures params.generationFolder == GenerationFolder(cfg.outputFolder, project.basedir, cwd)
    ensures params.artifactsPath == ArtifactsPath(project, dirExists, toUrl)
    ensures params.configurationPath == Assigned(cfg.configFile)
    ensures params.defaultSchema == Assigned(cfg.defaultSchema)
    ensures params.hackWires == Assigned(cfg.hackWires)
    ensures params.innerClassesForKeys == Assigned(cfg.innerClassesForKeys)
    ensures params.contexts == Assigned(cfg.contexts)
    ensures params.packages.Assigned? <==> cfg.packages.Some? && !IsBlank(cfg.packages.value)
    ensures params.packages.Assigned? ==> params.packages.value == Split(cfg.packages.value, ',')
    ensures generated == [params]
    ensures log == DiagnosticsOf(project.artifacts, toUrl, false) + SelfDiagnostics(project, dirExists, toUrl)
  {
    var targetFolderFile := Normalize(cfg.outputFolder);
    var generationFolder := AbsolutePath(ChildOfString(AbsolutePath(project.basedir, cwd), cfg.outputFolder), cwd);
    if IsAbsolute(targetFolderFile) {
      generationFolder := AbsolutePath(Normalize(cfg.outputFolder), cwd);
    }
    var projectArtifactsPath;
    projectArtifactsPath, log := GetProjectArtifactsPath(project, dirExists, toUrl);
    params := GenerationProperties(cfg.capability, projectArtifactsPath, generationFolder,
                                   EngineDefault, EngineDefault, EngineDefault, EngineDefault, EngineDefault, EngineDefault);

    params := params.(configurationPath := Assigned(cfg.configFile));
    params := params.(defaultSchema := Assigned(cfg.defaultSchema));
    params := params.(hackWires := Assigned(cfg.hackWires));
    params := params.(innerClassesForKeys := Assigned(cfg.innerClassesForKeys));
    params := params.(contexts := Assigned(cfg.contexts));

    if cfg.packages.Some? && Trim(cfg.packages.value) != "" {
      params := params.(packages := Assigned(Split(cfg.packages.value, ',')));
    }

    generated := [params];
  }

  /**
   * A `packages` value that is not blank becomes exactly the comma-separated
   * pieces of the untrimmed string, blanks kept: " a, b" gives [" a", " b"].
   */
  lemma PackagesKeepWhitespace()
    ensures Split(" a, b", ',') == [" a", " b"]
  {
    SplitJoin([" a", " b"], ',');
    assert Join([" a", " b"], ',') == " a, b";
  }
}
