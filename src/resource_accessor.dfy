/**
 * org.everit.db.lb2qd.plugin.CustomClassLoaderResourceAccessor: the resource
 * accessor handed to the generator. A resource is looked up on the
 * accessor's own defining classloader first and, failing that, as a file
 * under the project's resource directories.
 */
module ResourceAccessor {
  import opened Wrappers
  import opened JavaFile
  import opened Maven

  /** A classloader, known by identity only. */
  datatype ClassLoader = ClassLoader(name: string)

  /** A stream from a classloader resource or from an opened file. */
  datatype InputStream = ResourceStream(loader: ClassLoader, name: string) | FileStream(path: Path)

  /** How getResourceAsStream ends: a stream or null, or a FileNotFoundException for a file. */
  datatype StreamResult = Returned(stream: Option<InputStream>) | FileNotFoundThrown(path: Path)

  type Url = string

  /** `new File(new File(directory), file)`: the file looked for in one resource directory. */
  function Candidate(directory: string, file: string): (r: Path)
    ensures r == ChildOfString(directory, file)
    ensures IsAbsolute(directory) ==> IsAbsolute(r)
    ensures directory != [] ==> var d := Normalize(directory); |d| <= |r| && r[..|d|] == d
    ensures |Normalize(file)| <= |r| && r[|r| - |Normalize(file)|..] == Normalize(file)
  {
    ChildOf(Normalize(directory), file)
  }

  /**
   * The lookup as the code performs it: a classloader hit wins; with no
   * resource directories the answer is null; otherwise only the first
   * directory is tried, and a file missing there is an exception, not a
   * reason to try the next directory.
   */
  function LookupAsWritten(ownLoader: ClassLoader, directories: seq<string>, file: string,
                           loaderHas: (ClassLoader, string) -> bool, canOpen: Path -> bool): (r: StreamResult)
    ensures loaderHas(ownLoader, file) ==> r == Returned(Some(ResourceStream(ownLoader, file)))
    ensures r == Returned(None) <==> !loaderHas(ownLoader, file) && directories == []
    ensures r.FileNotFoundThrown? <==>
      !loaderHas(ownLoader, file) && directories != [] && !canOpen(Candidate(directories[0], file))
    ensures r.FileNotFoundThrown? ==> r.path == Candidate(directories[0], file)
    ensures r.Returned? && r.stream.Some? && r.stream.value.FileStream? ==>
      directories != [] && r.stream.value.path == Candidate(directories[0], file) && canOpen(r.stream.value.path)
  {
    if loaderHas(ownLoader, file) then Returned(Some(ResourceStream(ownLoader, file)))
    else if directories == [] then Returned(None)
    else
      var candidate := Candidate(directories[0], file);
      if canOpen(candidate) then Returned(Some(FileStream(candidate))) else FileNotFoundThrown(candidate)
  }

  /** The candidate file of every resource directory, in order. */
  function Candidates(directories: seq<string>, file: string): (r: seq<Path>)
    ensures |r| == |directories|
    ensures forall i :: 0 <= i < |directories| ==> r[i] == Candidate(directories[i], file)
  {
    seq(|directories|, i requires 0 <= i < |directories| => Candidate(directories[i], file))
  }

  /**
   * The position of the first candidate, in order, that can be opened; the
   * number of candidates when none can.
   */
  function FirstOpenable(candidates: seq<Path>, canOpen: Path -> bool): (k: nat)
    ensures k <= |candidates|
    ensures forall j :: 0 <= j < k ==> !canOpen(candidates[j])
    ensures k < |candidates| ==> canOpen(candidates[k])
    decreases |candidates|
  {
    if candidates == [] || canOpen(candidates[0]) then 0
    else
      var k := FirstOpenable(candidates[1..], canOpen);
      assert forall j :: 1 <= j < k + 1 ==> candidates[j] == candidates[1..][j - 1];
      k + 1
  }

  /**
   * The lookup as evidently intended: a classloader hit wins; otherwise
   * the first resource directory holding an openable file supplies it; null
   * when none does.
   */
  function LookupCorrected(ownLoader: ClassLoader, directories: seq<string>, file: string,
                           loaderHas: (ClassLoader, string) -> bool, canOpen: Path -> bool): (r: Option<InputStream>)
    ensures loaderHas(ownLoader, file) ==> r == Some(ResourceStream(ownLoader, file))
    ensures !loaderHas(ownLoader, file) && r.Some? ==>
      r.value.FileStream? && r.value.path in Candidates(directories, file) && canOpen(r.value.path)
    ensures r.None? ==>
      !loaderHas(ownLoader, file) && forall c :: c in Candidates(directories, file) ==> !canOpen(c)
  {
    if loaderHas(ownLoader, file) then Some(ResourceStream(ownLoader, file))
    else
      var candidates := Candidates(directories, file);
      var k := FirstOpenable(candidates, canOpen);
      if k < |candidates| then Some(FileStream(candidates[k])) else None
  }

  class CustomClassLoaderResourceAccessor {
    var project: MavenProject
    var classLoader: ClassLoader

    constructor (project: MavenProject, classLoader: ClassLoader)
      ensures this.project == project && this.classLoader == classLoader
    {
      this.project := project;
      this.classLoader := classLoader;
    }

    /**
     * getResourceAsStream, with `ownLoader` the accessor's defining
     * classloader (not the stored one), `loaderHas` telling which resources a
     * classloader has and `canOpen` which files FileInputStream can open.
     */
    method GetResourceAsStream(file: string, ownLoader: ClassLoader,
                               loaderHas: (ClassLoader, string) -> bool, canOpen: Path -> bool)
      returns (r: StreamResult)
      ensures r == LookupAsWritten(ownLoader, project.resources, file, loaderHas, canOpen)
    {
      var resourceAsStream: Option<InputStream> := None;
      if loaderHas(ownLoader, file) {
        resourceAsStream := Some(ResourceStream(ownLoader, file));
      }

      if resourceAsStream == None {
        var resources := project.resources;
        for i := 0 to |resources|
          invariant i == 0 && resourceAsStream == None
        {
          var liquibaseXml := Candidate(resources[i], file);
          if !canOpen(liquibaseXml) {
            return FileNotFoundThrown(liquibaseXml);
          }
          resourceAsStream := Some(FileStream(liquibaseXml));
          if resourceAsStream != None {
            break;
          }
        }
      }
      return Returned(resourceAsStream);
    }

    /**
     * The resource lookup with the directory loop the code evidently aims at:
     * a directory whose file cannot be opened is skipped instead of ending
     * the lookup with an exception.
     */
    method GetResourceAsStreamCorrected(file: string, ownLoader: ClassLoader,
                                        loaderHas: (ClassLoader, string) -> bool, canOpen: Path -> bool)
      returns (r: Option<InputStream>)
      ensures r == LookupCorrected(ownLoader, project.resources, file, loaderHas, canOpen)
    {
      r := None;
      if loaderHas(ownLoader, file) {
        r := Some(ResourceStream(ownLoader, file));
      }

      if r == None {
        var resources := project.resources;
        ghost var candidates := Candidates(resources, file);
        var i := 0;
        while i < |resources| && r == None
          invariant 0 <= i <= |resources|
          invariant r == None ==> i <= FirstOpenable(candidates, canOpen)
          invariant r != None ==> i - 1 == FirstOpenable(candidates, canOpen) && r == Some(FileStream(candidates[i - 1]))
        {
          var candidate := Candidate(resources[i], file);
          if canOpen(candidate) {
            r := Some(FileStream(candidate));
          }
          i := i + 1;
        }
      }
    }

    /**
     * getResources: the enumeration comes from the accessor's defining
     * classloader alone; the project's resource directories play no part.
     */
    method GetResources(packageName: string, ownLoader: ClassLoader,
                        enumerate: (ClassLoader, string) -> seq<Url>)
      returns (r: seq<Url>)
      ensures r == enumerate(ownLoader, packageName)
    {
      var resources := enumerate(ownLoader, packageName);
      return resources;
    }

    /** toClassLoader: the classloader stored by the constructor. */
    function ToClassLoader(): (r: ClassLoader)
      reads this
      ensures r == classLoader
    {
      classLoader
    }
  }

  /** An accessor built from a classloader hands that same classloader back. */
  method ToClassLoaderReturnsConstructorArgument(project: MavenProject, classLoader: ClassLoader)
    returns (r: ClassLoader)
    ensures r == classLoader
  {
    var accessor := new CustomClassLoaderResourceAccessor(project, classLoader);
    r := accessor.ToClassLoader();
  }

  /**
   * A classloader hit is returned whatever the project's resource
   * directories and files are: they are not consulted.
   */
  lemma ClassLoaderHitWins(ownLoader: ClassLoader, file: string, loaderHas: (ClassLoader, string) -> bool,
                           directories: seq<string>, canOpen: Path -> bool,
                           otherDirectories: seq<string>, otherCanOpen: Path -> bool)
    requires loaderHas(ownLoader, file)
    ensures LookupAsWritten(ownLoader, directories, file, loaderHas, canOpen)
         == LookupAsWritten(ownLoader, otherDirectories, file, loaderHas, otherCanOpen)
         == Returned(Some(ResourceStream(ownLoader, file)))
  {
  }

  /**
   * After a classloader miss only the first resource directory matters:
   * its file is returned when it opens and is reported missing otherwise,
   * whatever the later directories hold; with no directories the result is
   * null.
   */
  lemma OnlyFirstDirectoryTried(ownLoader: ClassLoader, file: string, loaderHas: (ClassLoader, string) -> bool,
                                directories: seq<string>, later: seq<string>, canOpen: Path -> bool)
    requires !loaderHas(ownLoader, file)
    ensures directories == [] ==> LookupAsWritten(ownLoader, directories, file, loaderHas, canOpen) == Returned(None)
    ensures directories != [] ==>
      var candidate := Candidate(directories[0], file);
      && LookupAsWritten(ownLoader, directories, file, loaderHas, canOpen)
         == LookupAsWritten(ownLoader, [directories[0]] + later, file, loaderHas, canOpen)
      && LookupAsWritten(ownLoader, directories, file, loaderHas, canOpen)
         == (if canOpen(candidate) then Returned(Some(FileStream(candidate))) else FileNotFoundThrown(candidate))
  {
  }

  /**
   * The file looked for is the resource directory joined with the requested
   * name, for a plain directory and a plain relative name.
   */
  lemma CandidateJoinsDirectoryAndName(directory: string, file: string)
    requires IsNormal(directory) && directory != [] && directory != "/"
    requires IsNormal(file) && file != [] && !IsAbsolute(file)
    ensures Candidate(directory, file) == directory + "/" + file
  {
    ChildOfRelative(directory, file);
  }

  /**
   * Two resource directories, the requested file only in the second: the
   * code throws for the first directory, where the intended lookup returns
   * the second directory's file.
   */
  lemma SecondDirectoryNeverReached(ownLoader: ClassLoader, loaderHas: (ClassLoader, string) -> bool, canOpen: Path -> bool)
    requires !loaderHas(ownLoader, "f") && !canOpen("a/f") && canOpen("b/f")
    ensures LookupAsWritten(ownLoader, ["a", "b"], "f", loaderHas, canOpen) == FileNotFoundThrown("a/f")
    ensures LookupCorrected(ownLoader, ["a", "b"], "f", loaderHas, canOpen) == Some(FileStream("b/f"))
  {
    LiteralCandidates();
    FirstOfTwoDirectoriesMissing(ownLoader, "a", "b", "f", loaderHas, canOpen);
  }

  /**
   * For any two resource directories where only the second holds an
   * openable file: the code throws for the first, the intended lookup
   * returns the second's file.
   */
  lemma FirstOfTwoDirectoriesMissing(ownLoader: ClassLoader, first: string, second: string, file: string,
                                     loaderHas: (ClassLoader, string) -> bool, canOpen: Path -> bool)
    requires !loaderHas(ownLoader, file)
    requires !canOpen(Candidate(first, file)) && canOpen(Candidate(second, file))
    ensures LookupAsWritten(ownLoader, [first, second], file, loaderHas, canOpen) == FileNotFoundThrown(Candidate(first, file))
    ensures LookupCorrected(ownLoader, [first, second], file, loaderHas, canOpen) == Some(FileStream(Candidate(second, file)))
  {
    var directories := [first, second];
    assert directories[0] == first && directories[1] == second;
    CorrectedLookupFindsFirstOpenable(ownLoader, directories, file, loaderHas, canOpen, 1);
  }

  /** The candidate files of the directories "a" and "b" for the name "f". */
  lemma LiteralCandidates()
    ensures Candidate("a", "f") == "a/f" && Candidate("b", "f") == "b/f"
  {
    CandidateJoinsDirectoryAndName("a", "f");
    CandidateJoinsDirectoryAndName("b", "f");
    assert "a" + "/" + "f" == "a/f" && "b" + "/" + "f" == "b/f";
  }

  /**
   * The intended lookup after a classloader miss: the first directory whose
   * file opens supplies the stream, every earlier one is skipped, and the
   * result is null exactly when no directory's file opens.
   */
  lemma CorrectedLookupFindsFirstOpenable(ownLoader: ClassLoader, directories: seq<string>, file: string,
                                          loaderHas: (ClassLoader, string) -> bool, canOpen: Path -> bool, i: nat)
    requires !loaderHas(ownLoader, file)
    ensures LookupCorrected(ownLoader, directories, file, loaderHas, canOpen) == None <==>
      forall j :: 0 <= j < |directories| ==> !canOpen(Candidates(directories, file)[j])
    ensures (i < |directories| && canOpen(Candidates(directories, file)[i])
             && forall j :: 0 <= j < i ==> !canOpen(Candidates(directories, file)[j]))
      ==> LookupCorrected(ownLoader, directories, file, loaderHas, canOpen) == Some(FileStream(Candidate(directories[i], file)))
  {
    var candidates := Candidates(directories, file);
    var k := FirstOpenable(candidates, canOpen);
    if i < |directories| && canOpen(candidates[i]) && (forall j :: 0 <= j < i ==> !canOpen(candidates[j])) {
      assert !(i < k) && !(k < i);
    }
  }
}
