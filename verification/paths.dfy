/** Where the program keeps its data: `get_data_path`, a decision over the two
    environment values `XDG_DATA_HOME` and `HOME`. */
module Paths {
  import opened Wrappers

  /** A path: a base taken verbatim from the environment followed by relative
      segments joined onto it. Separators and the operating system's string
      encoding are abstracted away. */
  datatype Path = Path(base: string, segments: seq<string>)

  /** The directory name the program owns under the data home. */
  const AppDir: string := "wysiwyg"

  /** The message `get_data_path` fails with. */
  const HomeMissing: string := "$HOME missing!"

  /** `PathBuf::join` with a relative path, which is a plain append of its
      segments; the contract spells out that nothing already there changes. */
  function Join(p: Path, rel: seq<string>): (q: Path)
    ensures q.base == p.base
    ensures |q.segments| == |p.segments| + |rel|
    ensures q.segments[..|p.segments|] == p.segments
    ensures q.segments[|p.segments|..] == rel
  {
    Path(p.base, p.segments + rel)
  }

  /** Joining in two steps is joining once with both parts, so joining the
      relative path `.local/share/wysiwyg` is joining its three segments one
      after another. */
  lemma JoinAssociative(p: Path, a: seq<string>, b: seq<string>)
    ensures Join(Join(p, a), b) == Join(p, a + b)
  {
    assert p.segments + a + b == p.segments + (a + b);
  }

  /** `XDG_DATA_HOME` joined with the program's directory when that variable is
      set at all (even to the empty string); otherwise `HOME` joined with
      `.local/share/wysiwyg`, unless `HOME` is unset or empty, which is the
      one failure. */
  function DataPath(xdg: Option<string>, home: Option<string>): (r: Result<Path, string>)
    ensures r.Failure? <==> xdg.None? && (home.None? || home.value == "")
    ensures r.Failure? ==> r.error == HomeMissing
    ensures r.Success? ==> |r.value.segments| > 0 && r.value.segments[|r.value.segments| - 1] == AppDir
    ensures r.Success? && xdg.Some? ==> r.value == Path(xdg.value, [AppDir])
    ensures r.Success? && xdg.None? ==> r.value == Path(home.value, [".local", "share", AppDir])
  {
    match xdg
    case Some(v) => Success(Join(Path(v, []), [AppDir]))
    case None =>
      match home
      case None => Failure(HomeMissing)
      case Some(h) =>
        if h == "" then Failure(HomeMissing)
        else Success(Join(Path(h, []), [".local", "share", AppDir]))
  }

  /** Once `XDG_DATA_HOME` is set, `HOME` is never consulted: its value, or its
      absence, makes no difference. */
  lemma XdgOverridesHome(x: string, home1: Option<string>, home2: Option<string>)
    ensures DataPath(Some(x), home1) == DataPath(Some(x), home2)
    ensures DataPath(Some(x), home1).Success?
  {
  }

  /** An empty `XDG_DATA_HOME` still counts as set: the result is the relative
      path `wysiwyg`, even when `HOME` would have given a usable directory. */
  lemma EmptyXdgIsHonoured(home: Option<string>)
    ensures DataPath(Some(""), home) == Success(Path("", [AppDir]))
  {
  }

  /** The data directory always lies under one of the two environment values. */
  lemma DataPathBase(xdg: Option<string>, home: Option<string>)
    requires DataPath(xdg, home).Success?
    ensures DataPath(xdg, home).value.base == xdg.GetOr(home.GetOr(""))
    ensures DataPath(xdg, home).value.base != "" || xdg == Some("")
  {
  }
}
