/** Path construction: `sshConfigPath` and `fillHome`. */
module Paths {

  /** `filepath.Join` of two elements: empty elements are dropped and the
      others are separated by "/". Lexical cleaning is not modelled. */
  function Join(dir: string, name: string): string
  {
    if dir == "" then name
    else if name == "" then dir
    else dir + "/" + name
  }

  /** `sshConfigPath`: a file in the ".ssh" directory under `home`. */
  function SshConfigPath(home: string, filename: string): string
  {
    Join(Join(home, ".ssh"), filename)
  }

  /** The path begins with "~/" and so names something under HOME. */
  predicate HomeRelative(path: string)
  {
    |path| >= 2 && path[..2] == "~/"
  }

  /** `fillHome`: expands "~" and a leading "~/" to the home directory. */
  function FillHome(path: string, home: string): (r: string)
    // only a path that starts with '~' can change
    ensures (path == "" || path[0] != '~') ==> r == path
    // "~user" forms are not expanded
    ensures path != "~" && !HomeRelative(path) ==> r == path
    ensures path == "~" ==> r == home
    // an expanded "~/x" is x placed under home
    ensures HomeRelative(path) ==> r == Join(home, path[2..])
    ensures home != "" && (path == "~" || HomeRelative(path)) ==> home <= r
  {
    if path == "~" then home
    else if HomeRelative(path) then Join(home, path[2..])
    else path
  }

  /** With an absolute home directory, expanding twice gives what expanding
      once gives: the expanded path starts with '/', not with '~'. */
  lemma FillHomeIdempotent(path: string, home: string)
    requires home != "" && home[0] == '/'
    ensures FillHome(FillHome(path, home), home) == FillHome(path, home)
  {
    var once := FillHome(path, home);
    if path == "~" || HomeRelative(path) {
      assert home <= once;
      assert once[0] == home[0];
      assert !HomeRelative(once) && once != "~";
    }
  }
}
