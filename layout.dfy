/**
 * The directories the program keeps next to itself (`__dirname`), shared by
 * the challenge server, the certificate lookup and the certbot command; and
 * the lexical resolution of `.` and `..` segments. The operating system
 * resolves `..` one component at a time on the directories that exist, so the
 * two agree when every intermediate directory exists and none is a symbolic
 * link.
 */
module Layout {
  import opened Text

  function Webroot(dirname: string): string { dirname + "/certbot-webroot" }
  function ConfigDir(dirname: string): string { dirname + "/certbot-config-dir" }
  function WorkDir(dirname: string): string { dirname + "/certbot-work-dir" }
  function LogsDir(dirname: string): string { dirname + "/certbot-logs-dir" }

  /** `certBasePath`, the directory whose entries are the certificate sets; it ends in a slash. */
  function LiveDir(dirname: string): string { ConfigDir(dirname) + "/live/" }

  /** `certPath`, the directory of one certificate set. */
  function CertDir(dirname: string, entry: string): string { LiveDir(dirname) + entry }

  function FullchainPath(dirname: string, entry: string): string { CertDir(dirname, entry) + "/fullchain.pem" }
  function PrivkeyPath(dirname: string, entry: string): string { CertDir(dirname, entry) + "/privkey.pem" }

  /**
   * Walks path segments from a starting directory: empty segments and `.`
   * stay, `..` goes up (never above the root), any other name goes down.
   */
  function Walk(dir: seq<string>, segments: seq<string>): seq<string>
    decreases |segments|
  {
    if |segments| == 0 then dir
    else
      var s := segments[0];
      var next :=
        if s == "" || s == "." then dir
        else if s == ".." then (if |dir| > 0 then dir[..|dir| - 1] else dir)
        else dir + [s];
      Walk(next, segments[1..])
  }

  /** The directory names a path denotes, from the root, once `.` and `..` are resolved. */
  function Resolve(path: string): seq<string> {
    Walk([], Split(path, '/'))
  }

  /** Walking two lists of segments is walking the first, then the second. */
  lemma {:induction false} WalkConcat(dir: seq<string>, x: seq<string>, y: seq<string>)
    ensures Walk(dir, x + y) == Walk(Walk(dir, x), y)
    decreases |x|
  {
    if |x| > 0 {
      assert (x + y)[0] == x[0];
      assert (x + y)[1..] == x[1..] + y;
      var s := x[0];
      var next :=
        if s == "" || s == "." then dir
        else if s == ".." then (if |dir| > 0 then dir[..|dir| - 1] else dir)
        else dir + [s];
      WalkConcat(next, x[1..], y);
    } else {
      assert x + y == y;
    }
  }

  /** Without a `..` segment a walk never leaves the directory it starts from. */
  lemma {:induction false} WalkStaysBelow(dir: seq<string>, segments: seq<string>)
    requires ".." !in segments
    ensures dir <= Walk(dir, segments)
    decreases |segments|
  {
    if |segments| > 0 {
      assert segments[0] != "..";
      assert ".." !in segments[1..];
      var next := if segments[0] == "" || segments[0] == "." then dir else dir + [segments[0]];
      WalkStaysBelow(next, segments[1..]);
    }
  }

  /** Splitting `a/b` at slashes: the pieces of `a`, then those of `b`. */
  lemma ResolveJoined(a: string, b: string)
    ensures Resolve(a + "/" + b) == Walk(Resolve(a), Split(b, '/'))
  {
    SplitConcat(a, b, '/');
    WalkConcat([], Split(a, '/'), Split(b, '/'));
  }

  /** A string placed before a path that starts with a slash: its pieces, then the path's after the first. */
  lemma SplitBeforeSlash(x: string, u: string)
    requires |u| > 0 && u[0] == '/'
    ensures Split(x + u, '/') == Split(x, '/') + Split(u, '/')[1..]
  {
    var t := u[1..];
    assert x + u == x + "/" + t;
    assert u == "" + "/" + t;
    SplitConcat(x, t, '/');
    SplitConcat("", t, '/');
  }

  /** A slash-free name, a slash, and more: the name is the first segment. */
  lemma SplitName(name: string, rest: string)
    requires '/' !in name
    ensures Split(name + "/" + rest, '/') == [name] + Split(rest, '/')
  {
    SplitConcat(name, rest, '/');
    SplitWithoutSeparator(name, '/');
  }

  /** A path ending in a slash-free name: the name is the last segment. */
  lemma SplitLastName(dir: string, name: string)
    requires '/' !in name
    ensures Split(dir + "/" + name, '/') == Split(dir, '/') + [name]
  {
    SplitConcat(dir, name, '/');
    SplitWithoutSeparator(name, '/');
  }
}
