/** `os.path.join` as the POSIX flavour (`posixpath.join`) defines it. */
module Paths {
  import opened PyText

  /** Joining one component: an absolute component replaces the path so far;
      otherwise a `/` is inserted unless the path is empty or already ends in `/`. */
  function Join(path: string, b: string): (r: string)
    ensures EndsWith(r, b)
    ensures b != [] && b[0] == '/' ==> r == b
    ensures (b == [] || b[0] != '/') ==> r == DirPrefix(path) + b
  {
    if b != [] && b[0] == '/' then
      assert [] + b == b;
      EndsWithConcat([], b);
      b
    else
      EndsWithConcat(DirPrefix(path), b);
      if path == [] || path[|path| - 1] == '/' then path + b
      else path + "/" + b
  }

  /** `os.path.join(a, *parts)` */
  function JoinAll(a: string, parts: seq<string>): (r: string)
    ensures parts != [] ==> EndsWith(r, parts[|parts| - 1])
    ensures parts == [] ==> r == a
    decreases |parts|
  {
    if parts == [] then a else JoinAll(Join(a, parts[0]), parts[1..])
  }

  /** The directory part `Join` puts in front of a relative component. */
  function DirPrefix(path: string): string
  {
    if path == [] || path[|path| - 1] == '/' then path else path + "/"
  }

  /** Joining a directory with relative names that contain no `/` of their own
      puts exactly one `/` between consecutive parts; an absolute last name
      stands for itself. */
  lemma JoinThree(dir: string, a: string, b: string, name: string)
    requires a != [] && a[0] != '/' && a[|a| - 1] != '/'
    requires b != [] && b[0] != '/' && b[|b| - 1] != '/'
    ensures name != [] && name[0] == '/' ==> JoinAll(dir, [a, b, name]) == name
    ensures (name == [] || name[0] != '/') ==>
              JoinAll(dir, [a, b, name]) == DirPrefix(dir) + a + "/" + b + "/" + name
  {
    var p1 := Join(dir, a);
    assert p1 == DirPrefix(dir) + a;
    var p2 := Join(p1, b);
    assert p2 == DirPrefix(dir) + a + "/" + b;
    assert JoinAll(dir, [a, b, name]) == JoinAll(p1, [b, name]) == JoinAll(p2, [name]) == Join(p2, name);
  }
}
