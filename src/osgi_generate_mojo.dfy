/**
 * org.everit.osgi.dev.lqmg.maven.GenerateMojo: the project's own artifact is
 * appended to the dependencies and treated by the same rule, with no build
 * directory fallback; generation is gated by the build context's delta.
 */
module OsgiGenerateMojo {
  import opened Wrappers
  import opened JavaFile
  import opened Maven
  import opened Classpath
  import opened GenerationFolders
  import opened OsgiLqmg

  /**
   * getProjectArtifactsPath: every artifact, dependencies and the project's
   * own alike, whose file converts to a URL contributes exactly that URI; an
   * artifact without a file contributes nothing and is warned about.
   */
  method GetProjectArtifactsPath(project: MavenProject, toUrl: Path -> Option<Uri>)
    returns (paths: set<Uri>, log: seq<Diagnostic>)
    ensures paths == UrisOf(project.artifacts + [project.artifact], toUrl)
    ensures forall u :: u in paths <==>
      exists a :: a in project.artifacts + [project.artifact] && ResolveArtifact(a, toUrl) == Located(u)
    ensures |paths| <= |project.artifacts| + 1
    ensures log == DiagnosticsOf(project.artifacts + [project.artifact], toUrl, true)
    ensures forall a :: MissingFile(a) in log <==> a in project.artifacts + [project.artifact] && a.file.None?
  {
    var artifacts := project.artifacts;
    artifacts := artifacts + [project.artifact];
    paths, log := CollectArtifactUris(artifacts, toUrl);
    forall u ensures u in paths <==> exists a :: a in artifacts && ResolveArtifact(a, toUrl) == Located(u) {
      UrisOfMembership(artifacts, toUrl, u);
    }
    UrisOfSize(artifacts, toUrl);
    forall a ensures MissingFile(a) in log <==> a in artifacts && a.file.None? {
      MissingFileReported(artifacts, toUrl, true, a);
    }
  }

  /**
   * execute: the generation folder, the class path, schemaToPackage always,
   * schemaPattern and packageName whenever non-null (their empty defaults
   * included); the generator runs once if the schema expression's file has a
   * delta and not at all otherwise.
   */
  method Execute(cfg: Config, project: MavenProject, cwd: Path,
                 toUrl: Path -> Option<Uri>, hasDelta: Path -> bool)
    returns (params: GenerationProperties, generated: seq<GenerationProperties>, log: seq<Diagnostic>)
    ensures params.schemaExpression == cfg.schemaExpression
    ensures params.generationFolder == GenerationFolder(cfg.targetFolder, project.basedir, cwd)
    ensures params.artifactsPath == UrisOf(project.artifacts + [project.artifact], toUrl)
    ensures params.schemaToPackage == Assigned(cfg.schemaToPackage)
    ensures params.schemaPattern.Assigned? <==> cfg.schemaPattern.Some?
    ensures cfg.schemaPattern.Some? ==> params.schemaPattern.value == cfg.schemaPattern.value
    ensures params.packageName.Assigned? <==> cfg.packageName.Some?
    ensures cfg.packageName.Some? ==> params.packageName.value == cfg.packageName.value
    ensures generated == if hasDelta(Normalize(cfg.schemaExpression)) then [params] else []
    ensures log == DiagnosticsOf(project.artifacts + [project.artifact], toUrl, true)
  {
    var targetFolderFile := Normalize(cfg.targetFolder);
    var generationFolder := AbsolutePath(ChildOfString(AbsolutePath(project.basedir, cwd), cfg.targetFolder), cwd);
    if IsAbsolute(targetFolderFile) {
      generationFolder := AbsolutePath(Normalize(cfg.targetFolder), cwd);
    }
    assert generationFolder == GenerationFolder(cfg.targetFolder, project.basedir, cwd);
    var projectArtifactsPath;
    projectArtifactsPath, log := GetProjectArtifactsPath(project, toUrl);
    params := GenerationProperties(cfg.schemaExpression, projectArtifactsPath, generationFolder,
                                   EngineDefault, EngineDefault, EngineDefault);

    params := params.(schemaToPackage := Assigned(cfg.schemaToPackage));
    if cfg.schemaPattern.Some? {
      params := params.(schemaPattern := Assigned(cfg.schemaPattern.value));
    }
    if cfg.packageName.Some? {
      params := params.(packageName := Assigned(cfg.packageName.value));
    }

    var xmlFile := Normalize(cfg.schemaExpression);
    if hasDelta(xmlFile) {
      generated := [params];
    } else {
      generated := [];
    }
  }
}
