/** The archive path of a reconciliation file, as text and as what the file system makes of it. */
module ArchivePath {
  import opened Prelude

  /** A file as it is found: the host, and the names from its root down. */
  datatype File = File(host: nat, parts: seq<string>)

  /** A worker process: where it runs, and the archive directory it was given. */
  datatype Worker = Worker(host: nat, cwd: seq<string>, archiveDir: string)

  function Suffix(version: int): string {
    "_v" + IntText(version) + ".xlsx"
  }

  /** The path the worker writes to and reads from. */
  function PathText(archiveDir: string, taskNo: string, version: int): string {
    archiveDir + "/" + taskNo + Suffix(version)
  }

  /** The text between the slashes. */
  function Split(s: string): (names: seq<string>)
    ensures names != []
  {
    if s == "" then [""]
    else
      var rest := Split(s[1..]);
      Prefixed(s[0], rest)
  }

  /** One character before a text that is split already. */
  function Prefixed(c: char, rest: seq<string>): (names: seq<string>)
    requires rest != []
    ensures names != []
  {
    if c == '/' then [""] + rest else [[c] + rest[0]] + rest[1..]
  }

  function Enter(at: seq<string>, name: string): seq<string> {
    if name in {"", "."} then at
    else if name == ".." then (if at == [] then at else at[..|at| - 1])
    else at + [name]
  }

  function Walk(at: seq<string>, names: seq<string>): seq<string>
    decreases |names|
  {
    if names == [] then at else Walk(Enter(at, names[0]), names[1..])
  }

  /** Where the path `text` leads. */
  function Resolve(w: Worker, text: string): File {
    File(w.host, Walk(if text != "" && text[0] == '/' then [] else w.cwd, Split(text)))
  }

  function FileOf(w: Worker, taskNo: string, version: int): File {
    Resolve(w, PathText(w.archiveDir, taskNo, version))
  }

  /** The directory a worker's archive path starts from. */
  function DirOf(w: Worker): File {
    Resolve(w, w.archiveDir + "/")
  }

  /** A number that names a file and not a path. */
  predicate Plain(taskNo: string) {
    '/' !in taskNo
  }

  // ---- splitting and walking ----------------------------------------------------------------

  lemma PrefixedAppend(c: char, a: seq<string>, b: seq<string>)
    requires a != []
    ensures Prefixed(c, a + b) == Prefixed(c, a) + b
  {
  }

  lemma {:induction false} SplitAppend(s: string, t: string)
    ensures Split(s + "/" + t) == Split(s) + Split(t)
  {
    if s == "" {
      assert ("/" + t)[1..] == t;
      assert s + "/" + t == "/" + t;
    } else {
      var whole, rest := s + "/" + t, Split(s[1..]);
      assert whole[1..] == s[1..] + "/" + t && whole[0] == s[0];
      SplitAppend(s[1..], t);
      PrefixedAppend(s[0], rest, Split(t));
      assert Split(whole) == Prefixed(s[0], rest + Split(t));
    }
  }

  lemma {:induction false} SplitPlain(s: string)
    requires Plain(s)
    ensures Split(s) == [s]
  {
    if s != "" {
      SplitPlain(s[1..]);
      assert [s[0]] + s[1..] == s;
    }
  }

  lemma {:induction false} WalkAppend(at: seq<string>, a: seq<string>, b: seq<string>)
    ensures Walk(at, a + b) == Walk(Walk(at, a), b)
    decreases |a|
  {
    if a == [] {
      assert a + b == b;
    } else {
      assert (a + b)[1..] == a[1..] + b;
      WalkAppend(Enter(at, a[0]), a[1..], b);
    }
  }

  /** One name after the other. */
  lemma EnterFirst(at: seq<string>, name: string, rest: string)
    requires Plain(name)
    ensures Walk(at, Split(name + "/" + rest)) == Walk(Enter(at, name), Split(rest))
  {
    SplitAppend(name, rest);
    SplitPlain(name);
    assert ([name] + Split(rest))[1..] == Split(rest);
    hide Split, Enter;
  }

  lemma EnterLast(at: seq<string>, name: string)
    requires Plain(name)
    ensures Walk(at, Split(name)) == Enter(at, name)
  {
    SplitPlain(name);
    assert [name][1..] == [];
    hide Split, Enter;
  }

  /** Following `s` and then `t`. */
  lemma WalkText(at: seq<string>, s: string, t: string)
    ensures Walk(at, Split(s + "/" + t)) == Walk(Walk(at, Split(s)), Split(t))
  {
    SplitAppend(s, t);
    WalkAppend(at, Split(s), Split(t));
  }

  /** Every number is followed from the archive directory on. */
  lemma FileFromDir(w: Worker, taskNo: string, version: int)
    ensures FileOf(w, taskNo, version) == File(w.host, Walk(DirOf(w).parts, Split(taskNo + Suffix(version))))
  {
    hide Split, Walk, Suffix;
    var name := taskNo + Suffix(version);
    var d, text := w.archiveDir + "/", PathText(w.archiveDir, taskNo, version);
    assert text == w.archiveDir + "/" + name && d == w.archiveDir + "/" + "";
    assert text[0] == d[0];
    var start := if d[0] == '/' then [] else w.cwd;
    WalkText(start, w.archiveDir, name);
    WalkText(start, w.archiveDir, "");
    EnterLast(Walk(start, Split(w.archiveDir)), "");
  }

  // ---- plain numbers ------------------------------------------------------------------------

  lemma {:induction false} DigitsAreDigits(n: nat)
    ensures Digits(n) != "" && forall i :: 0 <= i < |Digits(n)| ==> '0' <= Digits(n)[i] <= '9'
  {
    if n >= 10 {
      DigitsAreDigits(n / 10);
    }
  }

  lemma {:induction false} DigitsInjective(m: nat, n: nat)
    requires Digits(m) == Digits(n)
    ensures m == n
  {
    DigitsAreDigits(m / 10);
    DigitsAreDigits(n / 10);
    var last := |Digits(m)| - 1;
    assert Digits(m)[last] == Digits(n)[last];
    if m >= 10 && n >= 10 {
      assert Digits(m)[..last] == Digits(m / 10) && Digits(n)[..last] == Digits(n / 10);
      DigitsInjective(m / 10, n / 10);
    }
  }

  lemma MarkNotBefore(m: string, x: string, n: string, y: string)
    requires m + "_v" + x == n + "_v" + y && 'v' !in x
    ensures |n| <= |m|
  {
    var a := m + "_v" + x;
    assert a[|n| + 1] == (n + "_v" + y)[|n| + 1] == 'v';
    assert forall i :: |m| + 2 <= i < |a| ==> a[i] == x[i - |m| - 2];
  }

  lemma LastMark(m: string, x: string, n: string, y: string)
    requires m + "_v" + x == n + "_v" + y && 'v' !in x && 'v' !in y
    ensures m == n && x == y
  {
    var a, b := m + "_v" + x, n + "_v" + y;
    MarkNotBefore(m, x, n, y);
    MarkNotBefore(n, y, m, x);
    assert m == a[..|m|] && n == b[..|n|];
    assert x == a[|m| + 2..] && y == b[|n| + 2..];
  }

  /** The archive name tells number and version. */
  lemma NameInjective(m: string, v: nat, n: string, w: nat)
    requires m + Suffix(v) == n + Suffix(w)
    ensures m == n && v == w
  {
    DigitsAreDigits(v);
    DigitsAreDigits(w);
    hide Digits;
    var a, b := m + "_v" + Digits(v), n + "_v" + Digits(w);
    assert m + Suffix(v) == a + ".xlsx" && n + Suffix(w) == b + ".xlsx";
    assert |a| == |b| && a == (a + ".xlsx")[..|a|] && b == (b + ".xlsx")[..|a|];
    LastMark(m, Digits(v), n, Digits(w));
    DigitsInjective(v, w);
  }

  lemma DigitsPlain(n: nat)
    ensures Plain(Digits(n))
  {
    DigitsAreDigits(n);
  }

  /** The file of a plain number lies in the archive directory, under its own name. */
  lemma PlainFile(w: Worker, taskNo: string, version: nat)
    requires Plain(taskNo)
    ensures FileOf(w, taskNo, version) == File(w.host, DirOf(w).parts + [taskNo + Suffix(version)])
  {
    var name := taskNo + Suffix(version);
    DigitsPlain(version);
    FileFromDir(w, taskNo, version);
    hide Digits, Split, Walk, DirOf, FileOf;
    EnterLast(DirOf(w).parts, name);
  }

  /** So plain numbers meet in one file exactly if number, version and directory are the same. */
  lemma PlainFilesMeet(a: Worker, m: string, v: nat, b: Worker, n: string, w: nat)
    requires Plain(m) && Plain(n)
    ensures FileOf(a, m, v) == FileOf(b, n, w) <==> DirOf(a) == DirOf(b) && m == n && v == w
  {
    PlainFile(a, m, v);
    PlainFile(b, n, w);
    var x, y := DirOf(a).parts + [m + Suffix(v)], DirOf(b).parts + [n + Suffix(w)];
    if FileOf(a, m, v) == FileOf(b, n, w) {
      assert x == y;
      assert x[|x| - 1] == y[|y| - 1] && x[..|x| - 1] == DirOf(a).parts && y[..|y| - 1] == DirOf(b).parts;
      NameInjective(m, v, n, w);
    }
  }

  // ---- numbers with slashes -----------------------------------------------------------------

  /** A number that climbs `d` directories. */
  function Up(d: nat): (n: string)
    ensures |n| == 3 * d + 1 && '\n' !in n
  {
    if d == 0 then "R" else "../" + Up(d - 1)
  }

  lemma {:induction false} UpReachesRoot(at: seq<string>)
    ensures Walk(at, Split(Up(|at|) + Suffix(1))) == ["R" + Suffix(1)]
  {
    hide Split, Walk;
    if at == [] {
      DigitsPlain(1);
      EnterLast(at, "R" + Suffix(1));
    } else {
      var rest := Up(|at| - 1) + Suffix(1);
      UpReachesRoot(at[..|at| - 1]);
      assert Up(|at|) + Suffix(1) == ".." + "/" + rest;
      EnterFirst(at, "..", rest);
    }
  }

  /** A `./` before a number leads to the same file. */
  lemma DotLeadsNowhere(w: Worker, taskNo: string, version: int)
    ensures FileOf(w, "./" + taskNo, version) == FileOf(w, taskNo, version)
  {
    hide Split, Walk, DirOf, FileOf, Suffix;
    FileFromDir(w, taskNo, version);
    FileFromDir(w, "./" + taskNo, version);
    var name := taskNo + Suffix(version);
    assert "./" + taskNo + Suffix(version) == "." + "/" + name;
    EnterFirst(DirOf(w).parts, ".", name);
  }

  /** Every worker reaches the root of its host. */
  lemma RootReached(w: Worker)
    ensures FileOf(w, Up(|DirOf(w).parts|), 1) == File(w.host, ["R" + Suffix(1)])
  {
    FileFromDir(w, Up(|DirOf(w).parts|), 1);
    UpReachesRoot(DirOf(w).parts);
  }

  /** A directory name, followed by the rest of a path. */
  lemma EnterName(at: seq<string>, name: string, rest: string)
    requires Plain(name) && |name| >= 1 && name[0] != '.'
    ensures Walk(at, Split(name + "/" + rest)) == Walk(at + [name], Split(rest))
  {
    EnterFirst(at, name, rest);
    hide Walk, Split;
  }

  lemma DirIs(w: Worker, last: string)
    requires w.archiveDir == "/srv/archive/" + last && Plain(last) && |last| >= 1 && last[0] != '.'
    ensures DirOf(w) == File(w.host, ["srv", "archive"] + [last])
  {
    assert forall at :: Enter(at, "") == at;
    hide Split, Walk, Enter;
    var end := last + "/" + "";
    var text := "" + "/" + ("srv" + "/" + ("archive" + "/" + end));
    assert w.archiveDir + "/" == text && text[0] == '/';
    EnterFirst([], "", "srv" + "/" + ("archive" + "/" + end));
    EnterName([], "srv", "archive" + "/" + end);
    assert [] + ["srv"] == ["srv"];
    EnterName(["srv"], "archive", end);
    assert ["srv"] + ["archive"] == ["srv", "archive"];
    EnterName(["srv", "archive"], last, "");
    EnterLast(["srv", "archive"] + [last], "");
  }

  /** From `/srv/archive/2` the number `../1/R` leads to the file of `R` in `/srv/archive/1`. */
  lemma ParentReached(a: Worker, b: Worker)
    requires a.archiveDir == "/srv/archive/1" && b.archiveDir == "/srv/archive/2" && a.host == b.host
    ensures FileOf(b, "../1/R", 1) == FileOf(a, "R", 1) && DirOf(a) != DirOf(b)
  {
    var at := ["srv", "archive"] + ["2"];
    assert Enter(at, "..") == ["srv", "archive"] by { assert at[..2] == ["srv", "archive"]; }
    hide Split, Walk, DirOf, FileOf, Enter, Digits;
    var name := "R" + Suffix(1);
    DirIs(a, "1");
    DirIs(b, "2");
    assert DirOf(a).parts[2] != DirOf(b).parts[2];
    FileFromDir(a, "R", 1);
    FileFromDir(b, "../1/R", 1);
    assert "../1/R" + Suffix(1) == ".." + "/" + ("1" + "/" + name);
    EnterFirst(at, "..", "1" + "/" + name);
    EnterName(["srv", "archive"], "1", name);
  }
}
