/** Node's `path.join` / `path.resolve` as used by the configuration scripts:
    the first argument is always an absolute directory (`__dirname`), every
    further argument a single path segment. */
module Paths {

  /** An absolute, normalised path as its list of segments; `[]` is `/`. */
  type Path = seq<string>

  /** A segment that `path.join` keeps as it is. */
  predicate Plain(segment: string)
  {
    segment != "" && segment != "." && segment != ".."
  }

  /** `path.join(base, ...parts)`: empty and `.` segments vanish, `..` drops
      the last segment (and stays at the root), any other segment is
      appended. */
  function Join(base: Path, parts: seq<string>): Path
    decreases |parts|
  {
    if parts == [] then base
    else if parts[0] == "" || parts[0] == "." then Join(base, parts[1..])
    else if parts[0] == ".." then Join(if base == [] then [] else base[..|base| - 1], parts[1..])
    else Join(base + [parts[0]], parts[1..])
  }

  /** Joining plain segments appends them, in order. */
  lemma {:induction false} JoinPlain(base: Path, parts: seq<string>)
    requires forall i :: 0 <= i < |parts| ==> Plain(parts[i])
    ensures Join(base, parts) == base + parts
    decreases |parts|
  {
    if parts != [] {
      JoinPlain(base + [parts[0]], parts[1..]);
      assert base + [parts[0]] + parts[1..] == base + parts;
    }
  }

  /** `path.join(dir, '..', name)` names the sibling `name` of `dir`. */
  lemma SiblingOf(parent: Path, dir: string, name: string)
    requires Plain(dir) && Plain(name)
    ensures Join(parent + [dir], ["..", name]) == parent + [name]
  {
    assert (parent + [dir])[..|parent + [dir]| - 1] == parent;
    calc {
      Join(parent + [dir], ["..", name]);
      { assert ["..", name][1..] == [name]; }
      Join(parent, [name]);
      { assert [name][1..] == []; }
      Join(parent + [name], []);
    }
  }

  /** The string form of a path, segments after a `/` each. */
  function Render(p: Path): string
  {
    if p == [] then "/" else RenderSegments(p)
  }

  function RenderSegments(p: Path): string
  {
    if p == [] then "" else "/" + p[0] + RenderSegments(p[1..])
  }
}
