/**
 * org.everit.db.lb2qd.plugin.LiquiBaseToQueryDslMojo: an absolute target
 * folder is passed on verbatim, a relative one is placed under the base
 * directory; schemaPattern is applied only when it differs from a sentinel
 * default; generation is gated by the build context's delta.
 */
module Lb2qdMojo {
  import opened Wrappers
  import opened JavaFile
  import opened Maven
  import opened GenerationFolders

  /** The default of the schemaPattern parameter, meaning "not configured". */
  const EMPTY_VALUE: string := "DEFAULT_EMPTY_VALUE_LB2QD_MAVEN_PLUGIN_TO_SCHEMA_PATTERN"

  /** The mojo parameters; a nullable String is an Option. */
  datatype Config = Config(
    sourceXml: string,
    packageName: Option<string>,
    targetFolder: string,
    schemaToPackage: bool,
    schemaPattern: Option<string>)

  /** org.everit.db.lqmg.GenerationProperties as the mojo fills it. */
  datatype GenerationProperties = GenerationProperties(
    sourceXml: string,
    targetFolder: Path,
    schemaToPackage: Setting<bool>,
    schemaPattern: Setting<string>,
    packageName: Setting<string>)

  /**
   * How execute ends: normally, with the properties it built and the
   * generator invocations it made, or with the NullPointerException that
   * `schemaPattern.equals` raises on a null pattern.
   */
  datatype Outcome =
    | Finished(params: GenerationProperties, generated: seq<GenerationProperties>)
    | NullPointerThrown

  /**
   * The target folder handed to the generator: the configured string itself
   * when it is absolute (not normalised), otherwise the folder joined to the
   * base directory, which is absolute.
   */
  function TargetFolder(targetFolder: string, basedir: Path, cwd: Path): (r: Path)
    ensures IsAbsolute(targetFolder) ==> r == targetFolder
    ensures IsAbsolute(cwd) ==> IsAbsolute(r)
    ensures !IsAbsolute(targetFolder) ==> r == BasedirJoin(basedir, targetFolder, cwd)
  {
    if IsAbsolute(Normalize(targetFolder)) then targetFolder else BasedirJoin(basedir, targetFolder, cwd)
  }

  /**
   * An absolute folder reaches the generator as written here, while the
   * GenerateMojo variants hand on its normalised form.
   */
  lemma AbsoluteTargetFolderKeptVerbatim(basedir: Path, cwd: Path)
    ensures TargetFolder("/gen/", basedir, cwd) == "/gen/"
    ensures GenerationFolder("/gen/", basedir, cwd) == "/gen"
  {
    assert NoDoubleSlash("/gen/") by {
      forall i: nat | i + 1 < 5 ensures !SlashPairAt("/gen/", i) {
        assert "/gen/"[i + 1] == '/' ==> i == 3;
      }
    }
    assert "/gen/"[..4] == "/gen";
  }

  /**
   * execute: the target folder, schemaToPackage always, schemaPattern only
   * when it is not the sentinel, packageName whenever non-null (the empty
   * default included); the generator runs once if the source XML has a delta
   * and not at all otherwise. A null schemaPattern ends the run with a
   * NullPointerException before anything is generated.
   */
  method Execute(cfg: Config, project: MavenProject, cwd: Path, hasDelta: Path -> bool)
    returns (outcome: Outcome)
    ensures outcome.NullPointerThrown? <==> cfg.schemaPattern.None?
    ensures outcome.Finished? ==>
      && outcome.params.sourceXml == cfg.sourceXml
      && outcome.params.targetFolder == TargetFolder(cfg.targetFolder, project.basedir, cwd)
      && outcome.params.schemaToPackage == Assigned(cfg.schemaToPackage)
      && (outcome.params.schemaPattern.Assigned? <==> cfg.schemaPattern.value != EMPTY_VALUE)
      && (outcome.params.schemaPattern.Assigned? ==> outcome.params.schemaPattern.value == cfg.schemaPattern.value)
      && (outcome.params.packageName.Assigned? <==> cfg.packageName.Some?)
      && (cfg.packageName.Some? ==> outcome.params.packageName.value == cfg.packageName.value)
      && outcome.generated == if hasDelta(Normalize(cfg.sourceXml)) then [outcome.params] else []
  {
    var params;
    if IsAbsolute(Normalize(cfg.targetFolder)) {
      params := GenerationProperties(cfg.sourceXml, cfg.targetFolder, EngineDefault, EngineDefault, EngineDefault);
    } else {
      params := GenerationProperties(cfg.sourceXml, BasedirJoin(project.basedir, cfg.targetFolder, cwd),
                                     EngineDefault, EngineDefault, EngineDefault);
    }

    params := params.(schemaToPackage := Assigned(cfg.schemaToPackage));

    if cfg.schemaPattern.None? {
      return NullPointerThrown;
    }
    if cfg.schemaPattern.value != EMPTY_VALUE {
      params := params.(schemaPattern := Assigned(cfg.schemaPattern.value));
    }

    if cfg.packageName.Some? {
      params := params.(packageName := Assigned(cfg.packageName.value));
    }

    var xmlFile := Normalize(cfg.sourceXml);
    if hasDelta(xmlFile) {
      return Finished(params, [params]);
    }
    return Finished(params, []);
  }
}
