/**
 * Where the generated sources go, as the GenerateMojo variants compute it:
 * a relative folder is placed under the project's base directory, an
 * absolute one is taken in its absolute (normalised) form.
 */
module GenerationFolders {
  import opened JavaFile

  /** `new File(project.getBasedir().getAbsolutePath(), folder).getAbsolutePath()`. */
  function BasedirJoin(basedir: Path, folder: string, cwd: Path): (r: Path)
    ensures IsAbsolute(cwd) ==> IsAbsolute(r)
    ensures IsAbsolute(cwd) ==>
      var base := Normalize(AbsolutePath(basedir, cwd));
      |base| <= |r| && r[..|base|] == base
    ensures IsAbsolute(cwd) ==>
      var tail := Normalize(folder);
      |tail| <= |r| && r[|r| - |tail|..] == tail
  {
    var base := Normalize(AbsolutePath(basedir, cwd));
    var child := ChildOfString(AbsolutePath(basedir, cwd), folder);
    assert child == Resolve(if base == [] then "/" else base, Normalize(folder));
    assert IsAbsolute(cwd) ==> IsAbsolute(base) && base != [] && IsAbsolute(child) && AbsolutePath(child, cwd) == child;
    AbsolutePath(child, cwd)
  }

  /**
   * The generation folder of the persistence and OSGi GenerateMojo and of the
   * OSGi LiquiBaseToQueryDslMojo: the normalised folder when it is absolute,
   * otherwise the folder joined to the base directory; absolute either way.
   */
  function GenerationFolder(folder: string, basedir: Path, cwd: Path): (r: Path)
    ensures IsAbsolute(folder) ==> r == Normalize(folder)
    ensures IsAbsolute(cwd) ==> IsAbsolute(r)
    ensures !IsAbsolute(folder) ==> r == BasedirJoin(basedir, folder, cwd)
  {
    var joined := BasedirJoin(basedir, folder, cwd);
    if IsAbsolute(Normalize(folder)) then AbsolutePath(Normalize(folder), cwd) else joined
  }

  /**
   * For a normalised relative folder and a normalised absolute base
   * directory other than the root, the generation folder is exactly
   * base + "/" + folder.
   */
  lemma RelativeFolderUnderBasedir(folder: string, basedir: Path, cwd: Path)
    requires IsNormal(basedir) && IsAbsolute(basedir) && basedir != "/"
    requires IsNormal(folder) && folder != [] && !IsAbsolute(folder)
    ensures GenerationFolder(folder, basedir, cwd) == basedir + "/" + folder
  {
    ChildOfRelative(basedir, folder);
  }
}
