# lqmg-maven-plugin: class path assembly, output folders and resource lookup

This project models the decision logic of the lqmg / lb2qd Maven plugins,
which hand a Liquibase changelog to the LQMG QueryDSL metamodel generator.
Maven, the file system, URL conversion, the build context and the generator
are abstracted as inputs:

- **Class path assembly.** `getProjectArtifactsPath` has three variants.
  - The persistence `GenerateMojo` collects the file URIs of the dependency
    artifacts. For the current project it adds the artifact's URI, or else the
    build output directory's URI if that directory exists.
  - The two OSGi mojos append the project's own artifact to the dependency
    list and treat every artifact by one rule: an artifact without a file is
    skipped with a warning.
  - The result is built in a `HashSet` and is modelled as a `set`.
- **Generation folder and option overrides.** `execute` in the four mojos
  does three things.
  - It chooses the folder: an absolute folder is used on its own, a relative
    one is joined to the project base directory. lb2qd passes an absolute
    folder on verbatim; the others pass its normalised absolute form.
  - It copies optional settings into the `GenerationProperties`, each under
    its own condition: non-null, not the `EMPTY_VALUE` sentinel, or
    non-blank before a comma split.
  - The three mojos that have a build-delta gate call the generator only when
    the schema file has a delta. The persistence mojo calls it
    unconditionally.
- **Resource lookup.** `CustomClassLoaderResourceAccessor.getResourceAsStream`
  first asks the accessor's own classloader. Then it falls back to the
  project's resource directories, but as written it can only ever try the
  first one.

The `java.io.File` path arithmetic is modelled concretely for a Unix file
system, in module `JavaFile`: `normalize`, `resolve`, `isAbsolute` and
`getAbsolutePath`. The working directory is a parameter.

The external world enters as function-typed parameters:
- `toUrl`: `toURI().toURL().toExternalForm()`, where `None` is a `MalformedURLException`;
- `dirExists`: `File.exists`;
- `hasDelta`: `BuildContext.hasDelta`;
- `loaderHas`: the classloader lookup;
- `canOpen`: `FileInputStream` succeeds;
- `enumerate`: `ClassLoader.getResources`.

A generator call is recorded as the `GenerationProperties` value it receives.
The lb2qd mojo also passes the generator a resource accessor, and that
accessor is not part of the record (see Left out).
Setter-controlled properties are `Setting<T>`: `EngineDefault` until a setter
runs, then `Assigned(v)`. Warnings and errors become a `Diagnostic` log.

Facts about the code that shape the model:
- The class path is built in a `HashSet`, so no order is kept.
- `pluginArtifactMap` is never added to the class path. Only the lb2qd
  `execute` reads it, to build the resource accessor it passes to the generator.
- `getResourceAsStream` stops at the first resource directory; see Findings.
- `packageName` is applied whenever it is non-null, the empty default
  included.
- `getResources` asks only the classloader.

## Model

| member | source | states |
|---|---|---|
| JavaFile.Collapse | src/main/java/org/everit/persistence/lqmg/maven/GenerateMojo.java:116 | collapsing separator runs removes separators only (the characters other than '/' are unchanged, in order), keeps the first and last character, leaves no double separator and is the identity on paths without one |
| JavaFile.NonSeparators | src/main/java/org/everit/persistence/lqmg/maven/GenerateMojo.java:116 | the characters of a path other than separators are at most as many as the path's characters |
| JavaFile.NonSeparatorsAppend | src/main/java/org/everit/persistence/lqmg/maven/GenerateMojo.java:116 | the non-separator characters of a concatenation are those of its two parts, in order |
| JavaFile.Normalize | src/main/java/org/everit/persistence/lqmg/maven/GenerateMojo.java:116 | a File's path is normal (no double or trailing separator), is absolute iff the argument is, is empty iff the argument is, differs from the argument only in separators (the characters other than '/' are unchanged, in order), and a normal path is kept as is |
| JavaFile.Resolve | src/main/java/org/everit/db/lb2qd/plugin/CustomClassLoaderResourceAccessor.java:70 | UnixFileSystem.resolve of two normalised paths starts with the parent path, ends with the child path and is absolute when the parent is; `ChildOf` is the `File(File, String)` constructor built on it |
| JavaFile.AbsolutePath | src/main/java/org/everit/persistence/lqmg/maven/GenerateMojo.java:117-118 | getAbsolutePath keeps an absolute path, resolves a relative one to a path that starts with the working directory and ends with the relative path, and is absolute whenever the working directory is |
| JavaFile.IsAbsolute | src/main/java/org/everit/persistence/lqmg/maven/GenerateMojo.java:119 | File.isAbsolute on Unix: the path begins with the separator |
| JavaFile.NormalizeIdempotent | src/main/java/org/everit/db/lb2qd/plugin/CustomClassLoaderResourceAccessor.java:69 | normalising twice is normalising once: a File built from a File's path names that same path |
| JavaFile.ChildOf | src/main/java/org/everit/db/lb2qd/plugin/CustomClassLoaderResourceAccessor.java:70 | new File(File, String) starts with the parent's path (the root for an empty one), ends with the normalised child and is absolute when the parent is absolute or empty |
| JavaFile.ChildOfString | src/main/java/org/everit/persistence/lqmg/maven/GenerateMojo.java:117-118 | new File(String, String), which treats an empty parent as the root and normalises any other, names the same path as new File(new File(parent), child), and is absolute when the parent is absolute or empty |
| JavaFile.ChildOfRelative | src/main/java/org/everit/db/lb2qd/plugin/CustomClassLoaderResourceAccessor.java:69-70 | a relative child under a non-root directory is exactly directory + "/" + child |
| JavaString.TrimStart | src/main/java/org/everit/persistence/lqmg/maven/GenerateMojo.java:133 | the result is a suffix of the input, empty iff the input is blank, otherwise starting with a non-blank character |
| JavaString.TrimEnd | src/main/java/org/everit/persistence/lqmg/maven/GenerateMojo.java:133 | the result is a prefix of the input, empty iff the input is blank, otherwise ending with a non-blank character |
| JavaString.Trim | src/main/java/org/everit/persistence/lqmg/maven/GenerateMojo.java:133 | packages.trim() equals "" exactly when packages is blank; otherwise it is a contiguous slice of packages with only blank characters before and after it, whose first and last characters are not blank |
| JavaString.TrimmedSlice | src/main/java/org/everit/persistence/lqmg/maven/GenerateMojo.java:133 | a non-blank-led suffix after a blank run, cut before a blank run at its last non-blank character, is what trim leaves: empty iff the whole string is blank |
| JavaString.BlankAppend | src/main/java/org/everit/persistence/lqmg/maven/GenerateMojo.java:133 | a concatenation is blank exactly when both parts are |
| JavaString.Fields | src/main/java/org/everit/persistence/lqmg/maven/GenerateMojo.java:134 | cutting at every separator gives at least one piece and no piece contains the separator |
| JavaString.DropTrailingEmpty | src/main/java/org/everit/persistence/lqmg/maven/GenerateMojo.java:134 | String.split drops trailing empty pieces: the result is a prefix of the pieces and does not end with an empty one |
| JavaString.Split | src/main/java/org/everit/persistence/lqmg/maven/GenerateMojo.java:134 | no piece of split(",") contains the separator; SplitJoin states the pieces it recovers |
| JavaString.JoinFields | src/main/java/org/everit/persistence/lqmg/maven/GenerateMojo.java:134 | joining the pieces with the separator gives back the original string |
| JavaString.FieldsWithoutSeparator | src/main/java/org/everit/persistence/lqmg/maven/GenerateMojo.java:134 | a string without the separator is one piece |
| JavaString.FieldsAfterFirstSeparator | src/main/java/org/everit/persistence/lqmg/maven/GenerateMojo.java:134 | a separator-free head followed by the separator splits into the head and the pieces of the rest |
| JavaString.FieldsJoin | src/main/java/org/everit/persistence/lqmg/maven/GenerateMojo.java:134 | cutting the join of separator-free pieces gives back those pieces |
| JavaString.SplitJoin | src/main/java/org/everit/persistence/lqmg/maven/GenerateMojo.java:134 | split is the inverse of joining separator-free pieces whose last piece is not empty |
| Classpath.ResolveArtifact | src/main/java/org/everit/persistence/lqmg/maven/GenerateMojo.java:179-189 | an artifact yields a URI iff it has a file whose URL converts, and then exactly that URL; no file is told apart from a malformed URL |
| Classpath.CollectArtifactUris | src/main/java/org/everit/osgi/dev/lqmg/maven/GenerateMojo.java:109-129 | the loop's set is the URIs of the resolvable artifacts, and its log has one warning per file-less artifact and one error per malformed URL, in iteration order |
| Classpath.ArtifactStep | src/main/java/org/everit/persistence/lqmg/maven/GenerateMojo.java:146-152 | one more loop iteration adds exactly the artifact's own contribution to the set and its own report to the log |
| Classpath.UrisOfMembership | src/main/java/org/everit/persistence/lqmg/maven/GenerateMojo.java:145-152 | a URI is collected iff some artifact has a file converting to it; a file-less artifact contributes nothing |
| Classpath.UrisOfSize | src/main/java/org/everit/persistence/lqmg/maven/GenerateMojo.java:142-152 | the HashSet holds at most one URI per artifact |
| Classpath.UrisOfIgnoresOrder | src/main/java/org/everit/persistence/lqmg/maven/GenerateMojo.java:145-146 | the collected set is the same for any iteration order of the artifacts |
| Classpath.UrisOfAppend | src/main/java/org/everit/osgi/dev/lqmg/maven/GenerateMojo.java:105-107 | the URIs of a concatenated artifact list are the union of the URIs of the parts |
| Classpath.MissingFileReported | src/main/java/org/everit/osgi/dev/lqmg/maven/GenerateMojo.java:119-125 | a missing-location warning names an artifact iff the warning is enabled and that artifact is in the list without a file |
| GenerationFolders.BasedirJoin | src/main/java/org/everit/persistence/lqmg/maven/GenerateMojo.java:117-118 | the joined folder is absolute, starts with the normalised absolute base directory and ends with the normalised folder |
| GenerationFolders.GenerationFolder | src/main/java/org/everit/persistence/lqmg/maven/GenerateMojo.java:116-121 | an absolute folder gives its normalised form, a relative one the base-directory join; the result is absolute |
| GenerationFolders.RelativeFolderUnderBasedir | src/main/java/org/everit/persistence/lqmg/maven/GenerateMojo.java:116-121 | a plain relative folder under a plain absolute base directory becomes exactly basedir + "/" + folder |
| PersistenceGenerateMojo.ResolveArtifactFileUri | src/main/java/org/everit/persistence/lqmg/maven/GenerateMojo.java:179-189 | null unless the artifact has a file whose URL converts, else that URL; an error is logged exactly for a malformed URL |
| PersistenceGenerateMojo.GetProjectArtifactsPath | src/main/java/org/everit/persistence/lqmg/maven/GenerateMojo.java:141-177 | the result is the dependency URIs plus the project's own contribution, and the log is the dependency errors followed by the project's diagnostics |
| PersistenceGenerateMojo.ProjectOwnUris | src/main/java/org/everit/persistence/lqmg/maven/GenerateMojo.java:154-174 | the project adds its artifact's URI, else the existing build directory's URI, else nothing with a warning |
| PersistenceGenerateMojo.ArtifactsPathContents | src/main/java/org/everit/persistence/lqmg/maven/GenerateMojo.java:141-177 | a URI is in the class path iff a dependency resolves to it or the project contributes it; the size is at most the number of dependencies + 1 |
| PersistenceGenerateMojo.ProjectArtifactOrBuildDirectory | src/main/java/org/everit/persistence/lqmg/maven/GenerateMojo.java:154-158 | the project contributes at most one URI; a resolvable project artifact contributes exactly its URI whatever the build directory and its existence |
| PersistenceGenerateMojo.BuildDirectoryFallback | src/main/java/org/everit/persistence/lqmg/maven/GenerateMojo.java:159-174 | without a resolvable project artifact the build directory's URI is added iff the directory exists and converts, and the warning is logged iff it does not exist |
| PersistenceGenerateMojo.EmptyClassPath | src/main/java/org/everit/persistence/lqmg/maven/GenerateMojo.java:141-177 | no artifact files and no build directory give an empty class path |
| PersistenceGenerateMojo.Execute | src/main/java/org/everit/persistence/lqmg/maven/GenerateMojo.java:112-139 | generation folder, class path and every option are set as the mojo sets them; packages is set iff non-null and non-blank, to the split of the untrimmed string; the generator runs once |
| PersistenceGenerateMojo.PackagesKeepWhitespace | src/main/java/org/everit/persistence/lqmg/maven/GenerateMojo.java:133-135 | packages " a, b" becomes [" a", " b"]: the pieces are not trimmed |
| OsgiGenerateMojo.GetProjectArtifactsPath | src/main/java/org/everit/osgi/dev/lqmg/maven/GenerateMojo.java:101-130 | the set is exactly the URIs of dependencies plus project artifact with a convertible file, at most one per artifact; a warning names exactly the file-less ones |
| OsgiGenerateMojo.Execute | src/main/java/org/everit/osgi/dev/lqmg/maven/GenerateMojo.java:132-175 | generation folder and class path as specified; schemaToPackage always set, schemaPattern and packageName iff non-null; the generator runs once iff the schema file has a delta, else never |
| OsgiLiquiBaseToQueryDslMojo.GetProjectArtifactsPath | src/main/java/org/everit/osgi/dev/lqmg/maven/LiquiBaseToQueryDslMojo.java:110-139 | the set is exactly the URIs of dependencies plus project artifact with a convertible file, at most one per artifact; a warning names exactly the file-less ones |
| OsgiLiquiBaseToQueryDslMojo.Execute | src/main/java/org/everit/osgi/dev/lqmg/maven/LiquiBaseToQueryDslMojo.java:141-184 | generation folder and class path as specified; schemaToPackage always set, schemaPattern and packageName iff non-null; the generator runs once iff the schema file has a delta, else never |
| Lb2qdMojo.TargetFolder | src/main/java/org/everit/db/lb2qd/plugin/LiquiBaseToQueryDslMojo.java:121-142 | an absolute target folder is kept verbatim, a relative one becomes the absolute base-directory join |
| Lb2qdMojo.AbsoluteTargetFolderKeptVerbatim | src/main/java/org/everit/db/lb2qd/plugin/LiquiBaseToQueryDslMojo.java:121-126 | "/gen/" reaches the generator as "/gen/" here but as "/gen" from the GenerateMojo variants |
| Lb2qdMojo.Execute | src/main/java/org/everit/db/lb2qd/plugin/LiquiBaseToQueryDslMojo.java:112-170 | a null schemaPattern throws; otherwise the target folder is set, schemaToPackage always, schemaPattern iff not EMPTY_VALUE, packageName iff non-null, and the generator runs once iff sourceXML has a delta |
| ResourceAccessor.Candidate | src/main/java/org/everit/db/lb2qd/plugin/CustomClassLoaderResourceAccessor.java:69-70 | the file looked for is new File(directory, file): it starts with the normalised directory, ends with the normalised name and is absolute when the directory is |
| ResourceAccessor.LookupAsWritten | src/main/java/org/everit/db/lb2qd/plugin/CustomClassLoaderResourceAccessor.java:63-77 | a classloader hit is returned; null exactly on a miss with no directories; FileNotFoundException exactly when the first directory's file does not open; any file stream is the first directory's file |
| ResourceAccessor.LookupCorrected | src/main/java/org/everit/db/lb2qd/plugin/CustomClassLoaderResourceAccessor.java:63-77 | a classloader hit is returned; otherwise any stream is an openable candidate file, and null means no candidate opens |
| ResourceAccessor.Candidates | src/main/java/org/everit/db/lb2qd/plugin/CustomClassLoaderResourceAccessor.java:68-70 | one candidate file per resource directory, in order, each the directory joined with the name |
| ResourceAccessor.FirstOpenable | src/main/java/org/everit/db/lb2qd/plugin/CustomClassLoaderResourceAccessor.java:68-75 | the position of the first openable candidate: every earlier one fails to open and it opens, or none opens |
| ResourceAccessor.CustomClassLoaderResourceAccessor.constructor | src/main/java/org/everit/db/lb2qd/plugin/CustomClassLoaderResourceAccessor.java:56-59 | the accessor stores the project and the classloader it is given |
| ResourceAccessor.CustomClassLoaderResourceAccessor.GetResourceAsStream | src/main/java/org/everit/db/lb2qd/plugin/CustomClassLoaderResourceAccessor.java:61-78 | the loop computes the as-written lookup: a classloader hit, else null for no directories, else the first directory's file or FileNotFoundException |
| ResourceAccessor.CustomClassLoaderResourceAccessor.GetResourceAsStreamCorrected | src/main/java/org/everit/db/lb2qd/plugin/CustomClassLoaderResourceAccessor.java:61-78 | the intended loop computes the corrected lookup: a classloader hit, else the first openable directory file, else null |
| ResourceAccessor.CustomClassLoaderResourceAccessor.GetResources | src/main/java/org/everit/db/lb2qd/plugin/CustomClassLoaderResourceAccessor.java:80-85 | the enumeration is the own classloader's alone, with no resource-directory fallback |
| ResourceAccessor.CustomClassLoaderResourceAccessor.ToClassLoader | src/main/java/org/everit/db/lb2qd/plugin/CustomClassLoaderResourceAccessor.java:87-90 | toClassLoader returns the stored classloader field |
| ResourceAccessor.ToClassLoaderReturnsConstructorArgument | src/main/java/org/everit/db/lb2qd/plugin/CustomClassLoaderResourceAccessor.java:56-90 | an accessor built with a classloader returns that same classloader from toClassLoader |
| ResourceAccessor.ClassLoaderHitWins | src/main/java/org/everit/db/lb2qd/plugin/CustomClassLoaderResourceAccessor.java:63-65 | a classloader hit is returned whatever the resource directories and files are |
| ResourceAccessor.OnlyFirstDirectoryTried | src/main/java/org/everit/db/lb2qd/plugin/CustomClassLoaderResourceAccessor.java:63-77 | after a miss: no directories give null, otherwise the result depends on the first directory only: its file if it opens, FileNotFoundException if not |
| ResourceAccessor.CandidateJoinsDirectoryAndName | src/main/java/org/everit/db/lb2qd/plugin/CustomClassLoaderResourceAccessor.java:69-70 | the candidate is the resource directory + "/" + the requested name |
| ResourceAccessor.SecondDirectoryNeverReached | src/main/java/org/everit/db/lb2qd/plugin/CustomClassLoaderResourceAccessor.java:68-75 | with the file only in the second of two directories, the code throws for the first where the intended lookup returns the second's file |
| ResourceAccessor.FirstOfTwoDirectoriesMissing | src/main/java/org/everit/db/lb2qd/plugin/CustomClassLoaderResourceAccessor.java:68-75 | after a classloader miss, with the file missing from the first of two directories and present in the second, the code throws for the first directory's file and the intended lookup returns the second's |
| ResourceAccessor.CorrectedLookupFindsFirstOpenable | src/main/java/org/everit/db/lb2qd/plugin/CustomClassLoaderResourceAccessor.java:68-75 | the corrected lookup is null iff no directory's file opens, and returns the first directory whose file opens |

## Left out

- Logging is left out as an I/O side channel. This covers the info messages, the `C:/lqmg/log.txt` writer and the `logging()` dump with its swallowed exceptions. Warnings and errors are kept as `Diagnostic` values.
- Maven parameter binding, annotations, defaults and the `AbstractMojo` lifecycle are left out: they are configuration, not logic. Parameter values are inputs.
- `LQMG.generate` is foreign code. Each call is recorded as the properties it receives, so an exception it throws is not modelled.
- Real file-system and URL behaviour become the oracles `dirExists`, `toUrl`, `canOpen`, `loaderHas`, `enumerate` and `hasDelta`. The streams and URLs are opaque values.
- Windows path syntax is not modelled: `java.io.File` is modelled for Unix only.
- The order in which setters are called is not modelled, since each setter writes its own property. Only the final value of each property is stated. This includes "schemaToPackage is set before the other overrides".
- The order of the `HashSet`-to-array conversion is unspecified in Java. The result is modelled as a `set`, with no order claim.
- `QueryDSLGenerateMojo` is left out: it is a pass-through to the generator engine with no logic of its own.
- `pluginArtifactMap` is read only by the lb2qd `execute`, to build the `CustomClassLoaderResourceAccessor` it passes to `LQMG.generate` (LiquiBaseToQueryDslMojo.java:164-165), and by its `logging()` dump, which is left out with logging. That call passes the map to a three-argument accessor constructor that does not exist in the accessor's source. Each file is modelled on its own terms, so the accessor has the two-argument constructor.
- Lb2qdMojo.Execute: records the generator call by its `GenerationProperties` alone, without the resource accessor it is passed, because that accessor's constructor is not in the accessor's source and the engine's use of it is foreign code.
- Lb2qdMojo.Execute: an exception thrown by the engine is not modelled. Only the `NullPointerException` from a null `schemaPattern` is an outcome.

## Findings

| source | as written | input that shows it | evidently intended | confidence | as-written member | corrected member |
|---|---|---|---|---|---|---|
| src/main/java/org/everit/db/lb2qd/plugin/CustomClassLoaderResourceAccessor.java:68-75 | `new FileInputStream` never yields null and throws when the file is missing, so the loop ends at the first resource directory | classloader miss, resource directories "a" and "b", file "f" only present as "b/f" | skip a directory whose file cannot be opened and return the first one that opens | medium, not executed | ResourceAccessor.SecondDirectoryNeverReached | ResourceAccessor.CustomClassLoaderResourceAccessor.GetResourceAsStreamCorrected |
