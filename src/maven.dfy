/** The parts of Maven's project model the plugin reads, as plain values. */
module Maven {
  import opened Wrappers
  import opened JavaFile

  /**
   * A resolved artifact: its coordinates (used only in messages) and the
   * path of its file, null until the artifact has been packaged.
   */
  datatype Artifact = Artifact(id: string, file: Option<Path>)

  /**
   * A project snapshot: base directory (a File's path), the resolved
   * dependency artifacts in the order the Set is iterated, the project's own
   * artifact, the build output directory string, and the directory strings
   * of its declared resources.
   */
  datatype MavenProject = MavenProject(
    basedir: Path,
    artifacts: seq<Artifact>,
    artifact: Artifact,
    outputDirectory: string,
    resources: seq<string>)
}
