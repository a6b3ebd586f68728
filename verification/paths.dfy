/**
 * `pathlib.PurePosixPath` as the compose builder uses it: `base / name`.
 * A path is a sequence of segments, absolute or relative. Joining splits the
 * right operand on "/" and drops empty and "." segments; an absolute right
 * operand replaces the left one, as pathlib does.
 */
module Paths {
  import opened Text

  datatype Path = Path(absolute: bool, segments: seq<string>)

  /** The segments pathlib keeps from a string: neither empty nor ".". */
  function Segments(s: string): (r: seq<string>)
    ensures forall i | 0 <= i < |r| :: r[i] != "" && r[i] != "."
  {
    Kept(Split(s, '/'))
  }

  function Kept(parts: seq<string>): (r: seq<string>)
    ensures forall i | 0 <= i < |r| :: r[i] != "" && r[i] != "."
  {
    if |parts| == 0 then []
    else if parts[0] == "" || parts[0] == "." then Kept(parts[1..])
    else [parts[0]] + Kept(parts[1..])
  }

  function Parse(s: string): Path {
    Path(|s| > 0 && s[0] == '/', Segments(s))
  }

  /** pathlib's `p / s`. */
  function JoinPath(p: Path, s: string): Path {
    if |s| > 0 && s[0] == '/' then Parse(s) else Path(p.absolute, p.segments + Segments(s))
  }

  /** pathlib's `str(p)`. */
  function Render(p: Path): string {
    if p.absolute then "/" + Join(p.segments, "/")
    else if |p.segments| == 0 then "."
    else Join(p.segments, "/")
  }

  /** Joining "." (the catalog's `{"/media": "."}`) leaves the path as it was. */
  lemma JoinDot(p: Path)
    ensures JoinPath(p, ".") == p
  {
    SplitJoin(["."], '/');
    assert Kept(["."]) == [];
  }

  /** Joining a plain name appends exactly that one segment. */
  lemma JoinName(p: Path, name: string)
    requires name != "" && name != "." && '/' !in name
    ensures JoinPath(p, name) == Path(p.absolute, p.segments + [name])
  {
    assert Split(name, '/') == [name] by {
      SplitJoin([name], '/');
    }
    assert Kept([name]) == [name] + Kept([]);
  }
}
