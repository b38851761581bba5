/**
  POSIX path strings and a directory tree, with the top-down walk that
  `os.walk` performs when the caller prunes the sub-directory list in place
  (`dirs[:] = [d for d in dirs if ...]`) and filters the file names of each
  directory it visits.
 */
module FileTree {
  import opened Text

  /** `os.path.isabs` on POSIX. */
  predicate IsAbs(p: string) {
    StartsWith(p, "/")
  }

  /** `os.path.join(a, b)` on POSIX: an absolute `b` replaces `a`. */
  function PathJoin(a: string, b: string): (r: string)
    ensures IsAbs(b) ==> r == b
    ensures !IsAbs(b) ==> EndsWith(r, b)
  {
    if IsAbs(b) then b
    else if a == "" || EndsWith(a, "/") then a + b
    else a + "/" + b
  }

  /** Index just past the last '/' of `p` (0 when there is none). */
  function LastSlashEnd(p: string): (k: nat)
    ensures k <= |p|
    ensures k > 0 ==> p[k - 1] == '/'
    ensures forall i :: k <= i < |p| ==> p[i] != '/'
    decreases |p|
  {
    if p == [] then 0
    else if p[|p| - 1] == '/' then |p|
    else LastSlashEnd(p[..|p| - 1])
  }

  /** `os.path.basename` on POSIX: what follows the last '/'. */
  function Basename(p: string): (r: string)
    ensures '/' !in r
    ensures EndsWith(p, r)
  {
    p[LastSlashEnd(p)..]
  }

  lemma {:induction false} LastSlashEndAppend(pre: string, name: string)
    requires '/' !in name
    requires pre == "" || pre[|pre| - 1] == '/'
    ensures LastSlashEnd(pre + name) == |pre|
    decreases |name|
  {
    if name == [] {
      assert pre + name == pre;
    } else {
      assert (pre + name)[..|pre + name| - 1] == pre + name[..|name| - 1];
      assert (pre + name)[|pre + name| - 1] == name[|name| - 1];
      LastSlashEndAppend(pre, name[..|name| - 1]);
    }
  }

  /** Joining a slash-free name onto a directory and taking the basename gives the name back. */
  lemma BasenameOfJoin(dir: string, name: string)
    requires name != "" && '/' !in name
    ensures Basename(PathJoin(dir, name)) == name
  {
    assert !IsAbs(name) by { assert name[0] != '/'; }
    if dir == "" || EndsWith(dir, "/") {
      assert dir == "" || dir[|dir| - 1] == '/';
      LastSlashEndAppend(dir, name);
      assert (dir + name)[|dir|..] == name;
    } else {
      LastSlashEndAppend(dir + "/", name);
      assert dir + "/" + name == (dir + "/") + name;
      assert ((dir + "/") + name)[|dir| + 1..] == name;
    }
  }

  /** Index of the last '.' in `name`, or -1. */
  function LastDot(name: string): (k: int)
    ensures -1 <= k < |name|
    ensures k >= 0 ==> name[k] == '.'
    ensures forall i :: k < i < |name| ==> name[i] != '.'
    decreases |name|
  {
    if name == [] then -1
    else if name[|name| - 1] == '.' then |name| - 1
    else LastDot(name[..|name| - 1])
  }

  /** The extension part of `os.path.splitext` for a slash-free file name: from the
      last '.' on, unless every character before that dot is itself a dot. */
  function Extension(name: string): (ext: string)
    ensures ext == "" || (ext[0] == '.' && EndsWith(name, ext) && '.' !in ext[1..])
  {
    var k := LastDot(name);
    if k > 0 && exists i | 0 <= i < k :: name[i] != '.' then
      assert name[k..][1..] == name[k + 1..];
      name[k..]
    else ""
  }

  datatype FileEntry = FileEntry(name: string, content: string)

  /** A directory: its own name (unused for the root), its files and its
      sub-directories, each in the order the directory listing returns them. */
  datatype Dir = Dir(name: string, files: seq<FileEntry>, subdirs: seq<Dir>)

  /** A file reached by the walk: the names of the directories descended
      through from the root, and the file itself. */
  datatype Found = Found(dirs: seq<string>, entry: FileEntry)

  /** The path `os.walk` reports for the directory reached through `dirs`. */
  function DirPath(top: string, dirs: seq<string>): string
    decreases |dirs|
  {
    if dirs == [] then top else PathJoin(DirPath(top, dirs[..|dirs| - 1]), dirs[|dirs| - 1])
  }

  /** `os.path.join(root, file)` for a found file. */
  function FoundPath(top: string, f: Found): string {
    PathJoin(DirPath(top, f.dirs), f.entry.name)
  }

  /** The files of one directory that the filter keeps, in listing order. */
  function FilesHere(files: seq<FileEntry>, keepFile: string -> bool): (r: seq<Found>)
    ensures forall x :: x in r <==> x.dirs == [] && x.entry in files && keepFile(x.entry.name)
    decreases |files|
  {
    if files == [] then []
    else
      var last := files[|files| - 1];
      assert files == files[..|files| - 1] + [last];
      FilesHere(files[..|files| - 1], keepFile) + (if keepFile(last.name) then [Found([], last)] else [])
  }

  /** The walk results of a sub-directory, seen from its parent. */
  function Under(name: string, xs: seq<Found>): (r: seq<Found>)
    ensures |r| == |xs|
    ensures forall i :: 0 <= i < |xs| ==> r[i] == Found([name] + xs[i].dirs, xs[i].entry)
  {
    seq(|xs|, i requires 0 <= i < |xs| => Found([name] + xs[i].dirs, xs[i].entry))
  }

  /** Top-down walk: the kept files of `d`, then the walks of the kept
      sub-directories in listing order. A pruned directory is never entered. */
  function Walk(d: Dir, keepDir: string -> bool, keepFile: string -> bool): seq<Found>
    decreases d, |d.subdirs| + 1
  {
    FilesHere(d.files, keepFile) + WalkFrom(d, 0, keepDir, keepFile)
  }

  /** The walks of `d.subdirs[i..]` that survive pruning. */
  function WalkFrom(d: Dir, i: nat, keepDir: string -> bool, keepFile: string -> bool): seq<Found>
    requires i <= |d.subdirs|
    decreases d, |d.subdirs| - i
  {
    if i == |d.subdirs| then []
    else
      var sub := d.subdirs[i];
      (if keepDir(sub.name) then Under(sub.name, Walk(sub, keepDir, keepFile)) else [])
      + WalkFrom(d, i + 1, keepDir, keepFile)
  }

  /** File `e` sits in the directory reached from `d` through `dirs`. */
  predicate At(d: Dir, dirs: seq<string>, e: FileEntry)
    decreases d
  {
    if dirs == [] then e in d.files
    else exists sub :: sub in d.subdirs && sub.name == dirs[0] && At(sub, dirs[1..], e)
  }

  predicate AllKept(dirs: seq<string>, keepDir: string -> bool) {
    forall i :: 0 <= i < |dirs| ==> keepDir(dirs[i])
  }

  /** Exactly the files that sit under a chain of kept directories and pass
      the file filter are walked: nothing under a pruned directory, nothing
      the file filter refuses, and nothing else left out. */
  lemma {:induction false} WalkMembers(d: Dir, keepDir: string -> bool, keepFile: string -> bool, x: Found)
    ensures x in Walk(d, keepDir, keepFile)
        <==> AllKept(x.dirs, keepDir) && keepFile(x.entry.name) && At(d, x.dirs, x.entry)
    decreases d, |d.subdirs| + 1
  {
    var w := Walk(d, keepDir, keepFile);
    assert w == FilesHere(d.files, keepFile) + WalkFrom(d, 0, keepDir, keepFile);
    WalkFromMembers(d, 0, keepDir, keepFile, x);
    if x.dirs != [] {
      var tail := Found(x.dirs[1..], x.entry);
      assert AllKept(x.dirs, keepDir) ==> keepDir(x.dirs[0]);
      if At(d, x.dirs, x.entry) {
        var sub :| sub in d.subdirs && sub.name == x.dirs[0] && At(sub, x.dirs[1..], x.entry);
        var j :| 0 <= j < |d.subdirs| && d.subdirs[j] == sub;
        assert InSubdir(d, j, x);
      }
      if exists j :: 0 <= j < |d.subdirs| && InSubdir(d, j, x) {
        var j :| 0 <= j < |d.subdirs| && InSubdir(d, j, x);
        assert d.subdirs[j] in d.subdirs;
      }
    }
  }

  /** File `x` sits in sub-directory `j` of `d`, reached through the rest of its path. */
  ghost predicate InSubdir(d: Dir, j: nat, x: Found)
    requires j < |d.subdirs| && x.dirs != []
  {
    d.subdirs[j].name == x.dirs[0] && At(d.subdirs[j], x.dirs[1..], x.entry)
  }

  lemma {:induction false} WalkFromMembers(d: Dir, i: nat, keepDir: string -> bool, keepFile: string -> bool, x: Found)
    requires i <= |d.subdirs|
    ensures x in WalkFrom(d, i, keepDir, keepFile)
        <==> x.dirs != [] && keepDir(x.dirs[0]) && AllKept(x.dirs, keepDir) && keepFile(x.entry.name)
             && exists j :: i <= j < |d.subdirs| && InSubdir(d, j, x)
    decreases d, |d.subdirs| - i
  {
    if i < |d.subdirs| {
      WalkFromMembers(d, i + 1, keepDir, keepFile, x);
      SubdirMembers(d, i, keepDir, keepFile, x);
      if x.dirs != [] {
        InSomeSubdir(d, i, x);
      }
    }
  }

  /** A file is walked from `d.subdirs[i..]` when it is walked from the later
      subdirectories or sits in a kept chain under `d.subdirs[i]`. */
  lemma SubdirMembers(d: Dir, i: nat, keepDir: string -> bool, keepFile: string -> bool, x: Found)
    requires i < |d.subdirs|
    ensures x in WalkFrom(d, i, keepDir, keepFile)
        <==> x in WalkFrom(d, i + 1, keepDir, keepFile)
             || (x.dirs != [] && keepDir(x.dirs[0]) && AllKept(x.dirs, keepDir) && keepFile(x.entry.name)
                 && InSubdir(d, i, x))
    decreases d, 0
  {
    var sub := d.subdirs[i];
    var here := if keepDir(sub.name) then Under(sub.name, Walk(sub, keepDir, keepFile)) else [];
    assert WalkFrom(d, i, keepDir, keepFile) == here + WalkFrom(d, i + 1, keepDir, keepFile);
    if x.dirs != [] {
      var tail := Found(x.dirs[1..], x.entry);
      WalkMembers(sub, keepDir, keepFile, tail);
      UnderMembers(sub.name, Walk(sub, keepDir, keepFile), x);
      assert AllKept(x.dirs, keepDir) <==> keepDir(x.dirs[0]) && AllKept(tail.dirs, keepDir) by {
        assert x.dirs == [x.dirs[0]] + x.dirs[1..];
      }
    } else {
      assert x !in here;
    }
  }

  lemma InSomeSubdir(d: Dir, i: nat, x: Found)
    requires i < |d.subdirs| && x.dirs != []
    ensures (exists j :: i <= j < |d.subdirs| && InSubdir(d, j, x))
        <==> InSubdir(d, i, x) || exists j :: i + 1 <= j < |d.subdirs| && InSubdir(d, j, x)
  {
    if exists j :: i <= j < |d.subdirs| && InSubdir(d, j, x) {
      var j :| i <= j < |d.subdirs| && InSubdir(d, j, x);
      if j != i {
        assert i + 1 <= j < |d.subdirs| && InSubdir(d, j, x);
      }
    }
  }


  /** `Under(name, xs)` holds exactly the entries of `xs` moved below `name`. */
  lemma UnderMembers(name: string, xs: seq<Found>, x: Found)
    requires x.dirs != []
    ensures x in Under(name, xs) <==> x.dirs[0] == name && Found(x.dirs[1..], x.entry) in xs
  {
    var tail := Found(x.dirs[1..], x.entry);
    if x in Under(name, xs) {
      var k :| 0 <= k < |xs| && Under(name, xs)[k] == x;
      assert xs[k].dirs == x.dirs[1..];
      assert xs[k] == tail;
    }
    if x.dirs[0] == name && tail in xs {
      var k :| 0 <= k < |xs| && xs[k] == tail;
      assert x.dirs == [name] + xs[k].dirs;
      assert Under(name, xs)[k] == x;
    }
  }

  /** The walk as the source runs it: a loop over the files of each visited
      directory, appending the kept ones, then a descent into each kept
      sub-directory in turn. */
  method Collect(d: Dir, keepDir: string -> bool, keepFile: string -> bool) returns (found: seq<Found>)
    ensures found == Walk(d, keepDir, keepFile)
    decreases d, |d.subdirs| + 1
  {
    ghost var goal := Walk(d, keepDir, keepFile);
    found := CollectFiles(d.files, keepFile);
    for j := 0 to |d.subdirs|
      invariant found + WalkFrom(d, j, keepDir, keepFile) == goal
    {
      var sub := d.subdirs[j];
      var here: seq<Found> := [];
      if keepDir(sub.name) {
        var inner := Collect(sub, keepDir, keepFile);
        here := Under(sub.name, inner);
      }
      WalkFromStep(d, j, keepDir, keepFile, found, goal, here);
      found := found + here;
    }
    assert found + [] == found;
  }

  /** One more sub-directory of the loop: its walk, if kept, follows what was found. */
  lemma WalkFromStep(d: Dir, j: nat, keepDir: string -> bool, keepFile: string -> bool,
                     found: seq<Found>, goal: seq<Found>, here: seq<Found>)
    requires j < |d.subdirs|
    requires found + WalkFrom(d, j, keepDir, keepFile) == goal
    requires here == if keepDir(d.subdirs[j].name) then Under(d.subdirs[j].name, Walk(d.subdirs[j], keepDir, keepFile)) else []
    ensures (found + here) + WalkFrom(d, j + 1, keepDir, keepFile) == goal
  {
    var rest := WalkFrom(d, j + 1, keepDir, keepFile);
    assert WalkFrom(d, j, keepDir, keepFile) == here + rest;
    assert found + (here + rest) == (found + here) + rest;
  }

  /** The loop over the file names of one visited directory. */
  method CollectFiles(files: seq<FileEntry>, keepFile: string -> bool) returns (found: seq<Found>)
    ensures found == FilesHere(files, keepFile)
  {
    found := [];
    for i := 0 to |files|
      invariant found == FilesHere(files[..i], keepFile)
    {
      assert files[..i + 1][..i] == files[..i];
      if keepFile(files[i].name) {
        found := found + [Found([], files[i])];
      }
    }
    assert files[..|files|] == files;
  }
}
