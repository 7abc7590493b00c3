/** The two path helpers of the engine's anonymous namespace. The file system
    is a parameter: `readable` is the set of paths `access(path, R_OK)` accepts,
    and `dirName` stands for `files::GetDirectoryName`, which is not part of
    this model. */
module Paths {

  const ScriptScheme := "file://"
  const PackagesFile := "/.packages"

  /** The script URI for a file path: the path behind the `file://` scheme. */
  function GetScriptUriFromPath(path: string): (uri: string)
    ensures |uri| == |ScriptScheme| + |path|
    ensures uri[..|ScriptScheme|] == ScriptScheme && uri[|ScriptScheme|..] == path
  {
    ScriptScheme + path
  }

  /** Different paths give different script URIs. */
  lemma ScriptUriInjective(a: string, b: string)
    requires GetScriptUriFromPath(a) == GetScriptUriFromPath(b)
    ensures a == b
  {
    assert a == GetScriptUriFromPath(a)[|ScriptScheme|..];
  }

  /** The `.packages` file directly inside `directory`. */
  function PackagesIn(directory: string): string {
    directory + PackagesFile
  }

  /** The `.packages` file for a main Dart file: the one beside it if it is
      readable, else the one in the parent directory if that is readable, else
      the empty string. */
  function FindPackagesPath(mainDart: string, readable: set<string>, dirName: string -> string): (r: string)
    ensures r != "" ==> r in readable
    ensures r != "" ==> r == PackagesIn(dirName(mainDart)) || r == PackagesIn(dirName(dirName(mainDart)))
    ensures PackagesIn(dirName(mainDart)) in readable ==> r == PackagesIn(dirName(mainDart))
    ensures (PackagesIn(dirName(mainDart)) !in readable && PackagesIn(dirName(dirName(mainDart))) in readable)
              ==> r == PackagesIn(dirName(dirName(mainDart)))
    ensures r == "" <==> PackagesIn(dirName(mainDart)) !in readable && PackagesIn(dirName(dirName(mainDart))) !in readable
  {
    var directory := dirName(mainDart);
    var packagesPath := PackagesIn(directory);
    if packagesPath in readable then packagesPath
    else
      var parent := dirName(directory);
      var parentPackages := PackagesIn(parent);
      if parentPackages in readable then parentPackages else ""
  }
}
