/** The path handling of the file-serving route: `os.path.basename` on each
    URL component and `os.path.join` under the download directory. Paths are
    POSIX strings with `/` as the only separator. */
module Paths {
  import opened Common

  const Sep: char := '/'

  /** `posixpath.basename`: the part of `p` after its last `/` (all of `p`
      when it has none). The result holds no separator, is a suffix of `p`,
      and is the longest such suffix: the character before it is a `/`. */
  function Basename(p: string): (r: string)
    ensures Sep !in r
    ensures |r| <= |p| && r == p[|p| - |r|..]
    ensures |r| < |p| ==> p[|p| - |r| - 1] == Sep
  {
    if p == [] then []
    else if p[|p| - 1] == Sep then []
    else Basename(p[..|p| - 1]) + [p[|p| - 1]]
  }

  /** A separator-free component is its own basename, and only those are. */
  lemma {:induction false} BasenameFixedPoint(p: string)
    ensures Basename(p) == p <==> Sep !in p
  {
    if Sep !in p && p != [] {
      assert Sep !in p[..|p| - 1];
      BasenameFixedPoint(p[..|p| - 1]);
      assert p == p[..|p| - 1] + [p[|p| - 1]];
    }
  }

  /** Sanitizing twice is sanitizing once. */
  lemma BasenameIdempotent(p: string)
    ensures Basename(Basename(p)) == Basename(p)
  {
    BasenameFixedPoint(Basename(p));
  }

  /** Two-argument `posixpath.join`: an absolute `b` replaces `a`; otherwise
      `b` is appended, with a `/` between them unless `a` is empty or already
      ends in one. */
  function Join(a: string, b: string): string
  {
    if |b| > 0 && b[0] == Sep then b
    else if a == [] || a[|a| - 1] == Sep then a + b
    else a + [Sep] + b
  }

  /** The path the file route opens (app.py `serve_file`): both URL
      components reduced to their basename and joined under the download
      directory. */
  function ServedPath(downloadDir: string, taskId: string, filename: string): string {
    Join(Join(downloadDir, Basename(taskId)), Basename(filename))
  }

  /** Joining a separator-free component onto a directory without a
      trailing `/` puts exactly one `/` between them. */
  lemma JoinComponent(dir: string, c: string)
    requires dir != [] && dir[|dir| - 1] != Sep
    requires Sep !in c
    ensures Join(dir, c) == dir + [Sep] + c
  {
    if c != [] { assert c[0] in c; }
  }

  /** Joining two separator-free components in turn; an empty first one
      contributes only its `/`. */
  lemma JoinTwoComponents(dir: string, c1: string, c2: string)
    requires dir != [] && dir[|dir| - 1] != Sep
    requires Sep !in c1 && Sep !in c2
    ensures Join(Join(dir, c1), c2) == dir + [Sep] + c1 + (if c1 == [] then [] else [Sep]) + c2
  {
    JoinComponent(dir, c1);
    var d1 := Join(dir, c1);
    if c1 != [] {
      assert c1[|c1| - 1] in c1;
      assert d1[|d1| - 1] == c1[|c1| - 1];
      JoinComponent(d1, c2);
    } else {
      assert d1 == dir + [Sep];
      if c2 != [] { assert c2[0] in c2; }
    }
  }

  /** Neither sanitized component holds a separator, and the served path is
      the download directory, `/`, the sanitized task id, `/` (left out when
      that id is empty) and the sanitized filename. */
  lemma ServedPathShape(downloadDir: string, taskId: string, filename: string)
    requires downloadDir != [] && downloadDir[|downloadDir| - 1] != Sep
    ensures Sep !in Basename(taskId) && Sep !in Basename(filename)
    ensures ServedPath(downloadDir, taskId, filename)
         == downloadDir + [Sep] + Basename(taskId)
            + (if Basename(taskId) == [] then [] else [Sep]) + Basename(filename)
  {
    JoinTwoComponents(downloadDir, Basename(taskId), Basename(filename));
  }

  /** A component is a plain name when it is not empty and is neither of the
      special directory entries `.` and `..`. */
  predicate PlainName(s: string) {
    s != [] && s != "." && s != ".."
  }

  /** As written, a task id of `..` survives sanitizing, so for any filename
      without a `/` the route opens that file in the PARENT of the download
      directory (`app.py` itself, for one). */
  lemma DotDotEscapes(downloadDir: string, filename: string)
    requires downloadDir != [] && downloadDir[|downloadDir| - 1] != Sep
    requires Sep !in filename
    ensures Basename("..") == ".." && !PlainName(Basename(".."))
    ensures ServedPath(downloadDir, "..", filename) == downloadDir + [Sep] + ".." + [Sep] + filename
  {
    BasenameFixedPoint("..");
    BasenameFixedPoint(filename);
    JoinTwoComponents(downloadDir, "..", filename);
  }

  /** The lookup the sanitizer was meant to be: after `basename`, a component
      that is not a plain name yields "not found" instead of a path. Every
      path it does return is the download directory, then the sanitized task
      id, then the sanitized filename, each a plain name without `/`: it
      names an entry of a task directory directly under the download
      directory. */
  function SafeServedPath(downloadDir: string, taskId: string, filename: string): (r: Option<string>)
    requires downloadDir != [] && downloadDir[|downloadDir| - 1] != Sep
    ensures r.Some? <==> PlainName(Basename(taskId)) && PlainName(Basename(filename))
    ensures r.Some? ==> r.value == downloadDir + [Sep] + Basename(taskId) + [Sep] + Basename(filename)
    ensures r.Some? ==> r.value == ServedPath(downloadDir, taskId, filename)
  {
    ServedPathShape(downloadDir, taskId, filename);
    if PlainName(Basename(taskId)) && PlainName(Basename(filename))
    then Some(ServedPath(downloadDir, taskId, filename))
    else None
  }

  /** What the sanitizer leaves alone: a task id and a filename that hold no
      `/` and are plain names are found at exactly the joined path. */
  lemma SafeServedPathKeepsPlainNames(downloadDir: string, taskId: string, filename: string)
    requires downloadDir != [] && downloadDir[|downloadDir| - 1] != Sep
    requires Sep !in taskId && Sep !in filename
    requires PlainName(taskId) && PlainName(filename)
    ensures SafeServedPath(downloadDir, taskId, filename) == Some(Join(Join(downloadDir, taskId), filename))
  {
    BasenameFixedPoint(taskId);
    BasenameFixedPoint(filename);
  }
}
