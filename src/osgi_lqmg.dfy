/**
 * What the two OSGi-era mojos (org.everit.osgi.dev.lqmg.maven) share: their
 * parameters and org.everit.osgi.dev.lqmg.GenerationProperties.
 */
module OsgiLqmg {
  import opened Wrappers
  import opened JavaFile
  import opened Classpath

  /**
   * The mojo parameters; `packageName` and `schemaPattern` default to the
   * empty string and are null only when configured so.
   */
  datatype Config = Config(
    schemaExpression: string,
    packageName: Option<string>,
    targetFolder: string,
    schemaToPackage: bool,
    schemaPattern: Option<string>)

  datatype GenerationProperties = GenerationProperties(
    schemaExpression: string,
    artifactsPath: set<Uri>,
    generationFolder: Path,
    schemaToPackage: Setting<bool>,
    schemaPattern: Setting<string>,
    packageName: Setting<string>)
}
