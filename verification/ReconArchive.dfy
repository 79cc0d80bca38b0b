/** When the archived file that lands is the one that was downloaded: in general, for numbers that are plain
    file names, and for all numbers a notification accepts (app/api/v1/recon_notify.py,
    app/workers/recon_worker.py). */
module ReconArchive {
  import opened Prelude
  import Amounts
  import opened ArchivePath
  import opened ReconFile
  import opened ReconLanding

  // ---- one file for two rows ----------------------------------------------------------------

  function Fresh(tenant: string, taskNo: string, version: int): Task {
    Task(tenant, taskNo, version, 0, NOTIFIED, NoNote)
  }

  predicate FreshTask(t: Task) {
    t.status == NOTIFIED && t.note == NoNote && Accepted(t.taskNo, t.version)
  }

  /** Two rows are notified; `p` downloads `x` for the first, then `q` downloads `y` for the second, then
      `p` goes on. */
  function Crossing(t: Task, u: Task, p: nat, q: nat, x: Workbook, y: Workbook): seq<Event> {
    [Notify(t), Notify(u), Claim(p, 0), Claim(q, 1), Download(p, Some(x)),
     Download(q, Some(y)), SetDownloaded(p), Precheck(p), Open(p), Land(p)]
  }

  /** Two workers that reach one file for two rows can land the file of one under the other. */
  lemma SharedFileMixes(g: Config, t: Task, u: Task, p: nat, q: nat, x: Workbook, y: Workbook)
    requires p != q && FileFor(g, p, t) == FileFor(g, q, u)
    requires FreshTask(t) && FreshTask(u) && !SameKey(t, u)
    requires HeadersOk(y) && Convert(y).Ok?
    ensures var s := Run(g, EMPTY, Crossing(t, u, p, q, x, y));
            && 0 in s.children && s.children[0] == Convert(y).value
            && 0 in s.got && s.got[0] == x
            && |s.tasks| == 2 && SameKey(s.tasks[0], t) && s.tasks[0].status == PARSED
  {
    var evs := Crossing(t, u, p, q, x, y);
    TenSteps(g, EMPTY, evs);
    CrossDownloads(g, t, u, p, q, x, y);
    var s2 := Step(g, Step(g, EMPTY, evs[0]), evs[1]);
    var s6 := Step(g, Step(g, Step(g, Step(g, s2, evs[2]), evs[3]), evs[4]), evs[5]);
    CrossOpens(g, s6, t, p, x, y);
    var s9 := Step(g, Step(g, Step(g, s6, evs[6]), evs[7]), evs[8]);
    hide Run, Step, Landed, Convert, HeadersOk;
    LandShape(g, s9, p);
    LandedShape(s9.tasks, 0, |Convert(y).value.diffs|);
  }

  /** Both have downloaded; the second file lies where the first was written. */
  ghost predicate Crossed(g: Config, s: State, t: Task, p: nat, x: Workbook, y: Workbook) {
    var file := FileFor(g, p, t);
    && p in s.procs && s.procs[p] == Fetched(0)
    && file in s.disk && s.disk[file] == y
    && 0 in s.got && s.got[0] == x
    && |s.tasks| == 2 && SameKey(s.tasks[0], t)
  }

  lemma CrossDownloads(g: Config, t: Task, u: Task, p: nat, q: nat, x: Workbook, y: Workbook)
    requires p != q && FileFor(g, p, t) == FileFor(g, q, u)
    requires FreshTask(t) && FreshTask(u) && !SameKey(t, u)
    ensures var evs := Crossing(t, u, p, q, x, y);
            var s2 := Step(g, Step(g, EMPTY, evs[0]), evs[1]);
            var s6 := Step(g, Step(g, Step(g, Step(g, s2, evs[2]), evs[3]), evs[4]), evs[5]);
            Crossed(g, s6, t, p, x, y)
  {
    var evs := Crossing(t, u, p, q, x, y);
    TwoNotified(g, t, u);
    var s2 := EMPTY.(tasks := [t, u]);
    TwoClaimed(g, s2.tasks, p, q);
    hide Step, FreshTask;
    TwoWritten(g, Step(g, Step(g, s2, evs[2]), evs[3]), t, u, p, q, x, y);
  }

  lemma TwoClaimed(g: Config, tasks: seq<Task>, p: nat, q: nat)
    requires p != q && |tasks| == 2 && tasks[0].status == NOTIFIED && tasks[1].status == NOTIFIED
    ensures var s := Step(g, Step(g, EMPTY.(tasks := tasks), Claim(p, 0)), Claim(q, 1));
            && s.procs == map[p := Fetching(0), q := Fetching(1)] && |s.tasks| == 2
            && s.tasks[0] == tasks[0].(status := DOWNLOADING) && s.tasks[1] == tasks[1].(status := DOWNLOADING)
  {
  }

  lemma TwoWritten(g: Config, s: State, t: Task, u: Task, p: nat, q: nat, x: Workbook, y: Workbook)
    requires p != q && FileFor(g, p, t) == FileFor(g, q, u)
    requires s.procs == map[p := Fetching(0), q := Fetching(1)] && |s.tasks| == 2
    requires SameKey(s.tasks[0], t) && SameKey(s.tasks[1], u)
    ensures var s' := Step(g, Step(g, s, Download(p, Some(x))), Download(q, Some(y)));
            Crossed(g, s', t, p, x, y) && s'.tasks == s.tasks
  {
  }

  lemma TwoNotified(g: Config, t: Task, u: Task)
    requires FreshTask(t) && FreshTask(u) && !SameKey(t, u)
    ensures Step(g, Step(g, EMPTY, Notify(t)), Notify(u)) == EMPTY.(tasks := [t, u])
  {
    assert t.(status := NOTIFIED, note := NoNote) == t && u.(status := NOTIFIED, note := NoNote) == u;
  }

  lemma CrossOpens(g: Config, s: State, t: Task, p: nat, x: Workbook, y: Workbook)
    requires Crossed(g, s, t, p, x, y) && HeadersOk(y)
    ensures var s' := Step(g, Step(g, Step(g, s, SetDownloaded(p)), Precheck(p)), Open(p));
            && p in s'.procs && s'.procs[p] == Holding(0, y)
            && s'.got == s.got && |s'.tasks| == 2
            && s'.tasks[0] == SetStatus(s.tasks[0], DOWNLOADED, NoNote)
  {
    hide HeadersOk, LandStep;
    var s1 := Step(g, s, SetDownloaded(p));
    assert s1 == Put(s, p, Checking(0)).(tasks := s.tasks[0 := SetStatus(s.tasks[0], DOWNLOADED, NoNote)]);
    assert Step(g, s1, Precheck(p)) == Put(s1, p, Opening(0));
  }

  lemma TenSteps(g: Config, s: State, evs: seq<Event>)
    requires |evs| == 10
    ensures var s2 := Step(g, Step(g, s, evs[0]), evs[1]);
            var s6 := Step(g, Step(g, Step(g, Step(g, s2, evs[2]), evs[3]), evs[4]), evs[5]);
            Run(g, s, evs) == Step(g, Step(g, Step(g, Step(g, s6, evs[6]), evs[7]), evs[8]), evs[9])
  {
    hide Step;
    assert Run(g, s, evs[..0]) == s;
    assert forall i :: 0 <= i < 10 ==> evs[..i + 1][..i] == evs[..i];
    assert Run(g, s, evs[..1]) == Step(g, s, evs[0]);
    assert Run(g, s, evs[..2]) == Step(g, Run(g, s, evs[..1]), evs[1]);
    assert Run(g, s, evs[..3]) == Step(g, Run(g, s, evs[..2]), evs[2]);
    assert Run(g, s, evs[..4]) == Step(g, Run(g, s, evs[..3]), evs[3]);
    assert Run(g, s, evs[..5]) == Step(g, Run(g, s, evs[..4]), evs[4]);
    assert Run(g, s, evs[..6]) == Step(g, Run(g, s, evs[..5]), evs[5]);
    assert Run(g, s, evs[..7]) == Step(g, Run(g, s, evs[..6]), evs[6]);
    assert Run(g, s, evs[..8]) == Step(g, Run(g, s, evs[..7]), evs[7]);
    assert Run(g, s, evs[..9]) == Step(g, Run(g, s, evs[..8]), evs[8]);
    assert evs[..10] == evs;
  }

  // ---- two workbooks ------------------------------------------------------------------------

  function HeaderRow(cols: seq<string>): Row {
    seq(|cols|, i requires 0 <= i < |cols| => Cell.Value(cols[i], Amounts.Unparseable, None))
  }

  /** A well-formed workbook with the given differences and nothing else. */
  function SampleWorkbook(diffs: seq<Row>): Workbook {
    map[DIFFERENCES := [HeaderRow(DIFFERENCES_HEADER)] + diffs,
        WEDAP_SOURCE := [HeaderRow(WEDAP_SOURCE_HEADER)],
        BANK_SOURCE := [HeaderRow(BANK_SOURCE_HEADER)]]
  }

  function SampleRow(): Row {
    [Cell.Value("MISS", Amounts.Unparseable, None), Null, Null, Null, Null, Null, Null, Null]
  }

  lemma HeaderHolds(cols: seq<string>, rows: seq<Row>)
    ensures HeaderIs([HeaderRow(cols)] + rows, cols)
    ensures DataRows([HeaderRow(cols)] + rows) == DropBlank(rows)
  {
    assert ([HeaderRow(cols)] + rows)[1..] == rows;
    forall i | 0 <= i < |cols| ensures Text(HeaderRow(cols)[i]) == cols[i] {
    }
  }

  lemma SampleHolds(diffs: seq<Row>)
    ensures var wb := SampleWorkbook(diffs);
            && HeadersOk(wb) && DataRows(wb[DIFFERENCES]) == DropBlank(diffs)
            && DataRows(wb[WEDAP_SOURCE]) == [] && DataRows(wb[BANK_SOURCE]) == []
  {
    assert DIFFERENCES[0] != WEDAP_SOURCE[0] && WEDAP_SOURCE[0] != BANK_SOURCE[0] && DIFFERENCES[0] != BANK_SOURCE[0];
    HeaderHolds(DIFFERENCES_HEADER, diffs);
    HeaderHolds(WEDAP_SOURCE_HEADER, []);
    HeaderHolds(BANK_SOURCE_HEADER, []);
    assert [HeaderRow(WEDAP_SOURCE_HEADER)] + [] == [HeaderRow(WEDAP_SOURCE_HEADER)];
    assert [HeaderRow(BANK_SOURCE_HEADER)] + [] == [HeaderRow(BANK_SOURCE_HEADER)];
    hide HeaderIs, DataRows, HeaderRow;
  }

  lemma SamplesDiffer()
    ensures var x, y := SampleWorkbook([SampleRow()]), SampleWorkbook([]);
            && HeadersOk(x) && Convert(x).Ok? && HeadersOk(y) && Convert(y).Ok?
            && Convert(x) != Convert(y)
  {
    SampleHolds([SampleRow()]);
    SampleHolds([]);
    assert !IsBlank(SampleRow()[0]);
    assert DropBlank([SampleRow()]) == DropBlank([]) + [SampleRow()];
    ConvertsEachRow(DiffOf, [SampleRow()]);
    hide HeadersOk, DataRows, SampleWorkbook;
  }

  // ---- the exact condition ------------------------------------------------------------------

  /** A set of rows, by tenant, number and version. */
  type Rows = (string, string, int) -> bool

  /** Two workers reach one file for two different rows of the set. */
  ghost predicate Meet(g: Config, rows: Rows, p: nat, t: Task, q: nat, u: Task) {
    && p != q && FileFor(g, p, t) == FileFor(g, q, u)
    && FreshTask(t) && FreshTask(u) && !SameKey(t, u)
    && rows(t.tenant, t.taskNo, t.version) && rows(u.tenant, u.taskNo, u.version)
  }

  ghost predicate Separate(g: Config, rows: Rows) {
    forall p, t, q, u :: !Meet(g, rows, p, t, q, u)
  }

  /** Only rows of the set are notified. */
  ghost predicate Only(evs: seq<Event>, rows: Rows) {
    forall i :: 0 <= i < |evs| && evs[i].Notify? ==> rows(evs[i].task.tenant, evs[i].task.taskNo, evs[i].task.version)
  }

  ghost predicate AllWithin(tasks: seq<Task>, rows: Rows) {
    forall i :: 0 <= i < |tasks| ==>
      rows(tasks[i].tenant, tasks[i].taskNo, tasks[i].version) && Accepted(tasks[i].taskNo, tasks[i].version)
  }

  lemma KeysStayWithin(tasks: seq<Task>, tasks': seq<Task>, rows: Rows)
    requires AllWithin(tasks, rows) && |tasks'| == |tasks|
    requires forall i :: 0 <= i < |tasks| ==> SameKey(tasks[i], tasks'[i])
    ensures AllWithin(tasks', rows)
  {
    forall i | 0 <= i < |tasks'|
      ensures rows(tasks'[i].tenant, tasks'[i].taskNo, tasks'[i].version) && Accepted(tasks'[i].taskNo, tasks'[i].version)
    {
      assert SameKey(tasks[i], tasks'[i]);
    }
  }

  lemma {:induction false} RunWithin(g: Config, evs: seq<Event>, rows: Rows)
    requires Only(evs, rows)
    ensures AllWithin(Run(g, EMPTY, evs).tasks, rows)
  {
    if evs != [] {
      var n := |evs| - 1;
      var s, e := Run(g, EMPTY, evs[..n]), evs[n];
      RunWithin(g, evs[..n], rows);
      if !e.Notify? {
        TasksKeepKeys(g, s, e);
        SameCount(g, s, e);
        hide Step;
        KeysStayWithin(s.tasks, Step(g, s, e).tasks, rows);
      }
    }
  }

  lemma SameCount(g: Config, s: State, e: Event)
    requires !e.Notify?
    ensures |Step(g, s, e).tasks| == |s.tasks|
  {
    if e.Land? {
      LandKeepsKeys(g, s, e.pid);
    }
    hide Convert, HeadersOk, Landed, LandStep;
  }

  lemma SeparateIsApart(g: Config, tasks: seq<Task>, rows: Rows)
    requires Separate(g, rows) && AllWithin(tasks, rows) && KeysUnique(tasks)
    ensures Apart(g, tasks)
  {
    forall p, q, i, j | p != q && 0 <= i < |tasks| && 0 <= j < |tasks| && i != j
      ensures FileFor(g, p, tasks[i]) != FileFor(g, q, tasks[j])
    {
      var t, u := tasks[i].(status := NOTIFIED, note := NoNote), tasks[j].(status := NOTIFIED, note := NoNote);
      assert !SameKey(t, u) by {
        assert i < j ==> !SameKey(tasks[i], tasks[j]);
        assert j < i ==> !SameKey(tasks[j], tasks[i]);
      }
      assert !Meet(g, rows, p, t, q, u);
    }
  }

  /** A run in which the wrong file lands. */
  lemma MixedRun(g: Config, t: Task, u: Task, p: nat, q: nat) returns (evs: seq<Event>)
    requires p != q && FileFor(g, p, t) == FileFor(g, q, u)
    requires FreshTask(t) && FreshTask(u) && !SameKey(t, u)
    ensures forall i :: 0 <= i < |evs| && evs[i].Notify? ==> evs[i].task == t || evs[i].task == u
    ensures !Faithful(Run(g, EMPTY, evs), 0)
  {
    var x, y := SampleWorkbook([SampleRow()]), SampleWorkbook([]);
    evs := Crossing(t, u, p, q, x, y);
    SamplesDiffer();
    SharedFileMixes(g, t, u, p, q, x, y);
    CrossingNotifies(t, u, p, q, x, y);
    hide Convert, HeadersOk, Run, SampleWorkbook, Crossing, FreshTask, FileFor;
  }

  lemma CrossingNotifies(t: Task, u: Task, p: nat, q: nat, x: Workbook, y: Workbook)
    ensures var evs := Crossing(t, u, p, q, x, y);
            forall i :: 0 <= i < |evs| && evs[i].Notify? ==> evs[i].task == t || evs[i].task == u
  {
  }

  lemma SeparateRuns(g: Config, rows: Rows, evs: seq<Event>, id: nat)
    requires Separate(g, rows) && Only(evs, rows)
    ensures Faithful(Run(g, EMPTY, evs), id)
  {
    hide Separate, Only, Faithful, Run, Apart, AllWithin;
    RunWithin(g, evs, rows);
    RunKeepsInv(g, evs);
    SeparateIsApart(g, Run(g, EMPTY, evs).tasks, rows);
    LandedIsTheFile(g, evs, id);
  }

  lemma MixedRows(g: Config, rows: Rows) returns (evs: seq<Event>)
    requires !Separate(g, rows)
    ensures Only(evs, rows) && !Faithful(Run(g, EMPTY, evs), 0)
  {
    hide Faithful, Run, FileFor;
    var p, t, q, u :| Meet(g, rows, p, t, q, u);
    evs := MixedRun(g, t, u, p, q);
  }

  /** For every set of rows and every file system: the right file lands in all runs over these rows
      exactly when no two workers reach one file for two of them. */
  lemma FaithfulIffSeparate(g: Config, rows: Rows)
    ensures Separate(g, rows) <==>
            forall evs: seq<Event>, id: nat :: Only(evs, rows) ==> Faithful(Run(g, EMPTY, evs), id)
  {
    hide Separate, Only, Faithful, Run;
    if Separate(g, rows) {
      forall evs: seq<Event>, id: nat | Only(evs, rows) ensures Faithful(Run(g, EMPTY, evs), id) {
        SeparateRuns(g, rows, evs, id);
      }
    } else {
      var evs := MixedRows(g, rows);
    }
  }

  // ---- archive directories ------------------------------------------------------------------

  /** Workers whose archive paths are resolved as text. */
  function Posix(workers: nat -> Worker): Config {
    Config((p: nat, n: string, v: int) => FileOf(workers(p), n, v))
  }

  ghost predicate OwnDirectories(workers: nat -> Worker) {
    forall p, q :: p != q ==> DirOf(workers(p)) != DirOf(workers(q))
  }

  ghost predicate OwnHosts(workers: nat -> Worker) {
    forall p, q :: p != q ==> workers(p).host != workers(q).host
  }

  /** One meeting refutes separateness. */
  lemma Meeting(workers: nat -> Worker, rows: Rows, p: nat, m: string, q: nat, n: string, a: string, b: string)
    requires p != q && rows(a, m, 1) && rows(b, n, 1) && Accepted(m, 1) && Accepted(n, 1) && (a, m) != (b, n)
    requires FileOf(workers(p), m, 1) == FileOf(workers(q), n, 1)
    ensures !Separate(Posix(workers), rows)
  {
    hide FileOf;
    assert Meet(Posix(workers), rows, p, Fresh(a, m, 1), q, Fresh(b, n, 1));
  }

  lemma PlainSeparate(workers: nat -> Worker)
    ensures OwnDirectories(workers) <==> Separate(Posix(workers), (_, n, _) => Plain(n))
  {
    hide FileOf, DirOf;
    var g, plain: Rows := Posix(workers), (_, n, _) => Plain(n);
    if OwnDirectories(workers) {
      forall p, t, q, u ensures !Meet(g, plain, p, t, q, u) {
        if Meet(g, plain, p, t, q, u) {
          PlainFilesMeet(workers(p), t.taskNo, t.version, workers(q), u.taskNo, u.version);
        }
      }
      assert Separate(g, plain);
    } else {
      var p, q :| p != q && DirOf(workers(p)) == DirOf(workers(q));
      PlainFilesMeet(workers(p), "R", 1, workers(q), "R", 1);
      assert Accepted("R", 1);
      Meeting(workers, plain, p, "R", q, "R", "A", "B");
    }
  }

  /** As long as all numbers are plain file names, the right file lands in all runs exactly when no two
      workers have the same archive directory on the same host. */
  lemma FaithfulIffOwnDirectories(workers: nat -> Worker)
    ensures OwnDirectories(workers) <==>
            forall evs: seq<Event>, id: nat ::
              Only(evs, (_, n, _) => Plain(n)) ==> Faithful(Run(Posix(workers), EMPTY, evs), id)
  {
    hide OwnDirectories, Separate, Only, Faithful, Run, Posix;
    PlainSeparate(workers);
    FaithfulIffSeparate(Posix(workers), (_, n, _) => Plain(n));
  }

  /** With plain numbers a shared directory is harmless for one tenant alone. */
  lemma OneTenantMaySharePaths(workers: nat -> Worker, tenant: string, evs: seq<Event>, id: nat)
    requires Only(evs, (a, n, _) => a == tenant && Plain(n))
    ensures Faithful(Run(Posix(workers), EMPTY, evs), id)
  {
    var g, rows: Rows := Posix(workers), (a, n, _) => a == tenant && Plain(n);
    hide FileOf, DirOf;
    forall p, t, q, u ensures !Meet(g, rows, p, t, q, u) {
      if Meet(g, rows, p, t, q, u) {
        PlainFilesMeet(workers(p), t.taskNo, t.version, workers(q), u.taskNo, u.version);
      }
    }
    assert Separate(g, rows);
    FaithfulIffSeparate(g, rows);
  }

  // ---- numbers that are paths ---------------------------------------------------------------

  /** The deepest archive directory that a number of MAX_TASK_NO characters climbs out of. */
  const MAX_DEPTH: nat := 20

  /** A notification accepts numbers with slashes. Then separate directories do not help, not even one
      tenant alone: the right file lands in all runs exactly when every worker has its own host. */
  lemma AnyNumberIffOwnHosts(workers: nat -> Worker, rows: Rows, tenant: string)
    requires forall p :: |DirOf(workers(p)).parts| <= MAX_DEPTH
    requires forall n, v :: rows(tenant, n, v)
    ensures OwnHosts(workers) <==>
            forall evs: seq<Event>, id: nat :: Only(evs, rows) ==> Faithful(Run(Posix(workers), EMPTY, evs), id)
  {
    HostsSeparate(workers, rows, tenant);
    hide OwnHosts, Separate, Only, Faithful, Run, Posix;
    FaithfulIffSeparate(Posix(workers), rows);
  }

  lemma HostsSeparate(workers: nat -> Worker, rows: Rows, tenant: string)
    requires forall p :: |DirOf(workers(p)).parts| <= MAX_DEPTH
    requires forall n, v :: rows(tenant, n, v)
    ensures OwnHosts(workers) <==> Separate(Posix(workers), rows)
  {
    var g := Posix(workers);
    if OwnHosts(workers) {
      forall p, t, q, u ensures !Meet(g, rows, p, t, q, u) {
        assert FileFor(g, p, t).host == workers(p).host && FileFor(g, q, u).host == workers(q).host;
      }
    } else {
      hide FileOf, Up, DirOf, Separate, Posix;
      var p, q :| p != q && workers(p).host == workers(q).host;
      var c, d := |DirOf(workers(p)).parts|, |DirOf(workers(q)).parts|;
      var m, n := Up(c), "./" + Up(d);
      RootReached(workers(p));
      RootReached(workers(q));
      DotLeadsNowhere(workers(q), Up(d), 1);
      UpStarts(c);
      assert |n| == 3 * d + 3 && n[1] == '/';
      assert rows(tenant, m, 1) && rows(tenant, n, 1);
      Meeting(workers, rows, p, m, q, n, tenant, tenant);
    }
  }

  lemma UpStarts(d: nat)
    ensures |Up(d)| == 1 || Up(d)[1] == '.'
  {
  }

  /** One tenant, one directory: `R` and `./R` are two rows and one file. */
  lemma DotMixesFiles(workers: nat -> Worker, tenant: string, p: nat, q: nat) returns (evs: seq<Event>)
    requires p != q && DirOf(workers(p)) == DirOf(workers(q))
    ensures Only(evs, (a, n, v) => a == tenant && n in {"R", "./R"} && v == 1)
    ensures !Faithful(Run(Posix(workers), EMPTY, evs), 0)
  {
    FileFromDir(workers(p), "R", 1);
    FileFromDir(workers(q), "R", 1);
    DotLeadsNowhere(workers(q), "R", 1);
    assert FileOf(workers(p), "R", 1) == FileOf(workers(q), "./" + "R", 1);
    hide FileOf, DirOf;
    assert "./" + "R" == "./R" && |"./R"| != |"R"|;
    evs := MixedRun(Posix(workers), Fresh(tenant, "R", 1), Fresh(tenant, "./R", 1), p, q);
  }

  /** Two directories: `R` of the first and `../1/R` of the second are one file. */
  lemma ParentMixesFiles(workers: nat -> Worker, tenant: string, p: nat, q: nat) returns (evs: seq<Event>)
    requires p != q && workers(p).host == workers(q).host
    requires workers(p).archiveDir == "/srv/archive/1" && workers(q).archiveDir == "/srv/archive/2"
    ensures DirOf(workers(p)) != DirOf(workers(q))
    ensures Only(evs, (a, n, v) => a == tenant && n in {"R", "../1/R"} && v == 1)
    ensures !Faithful(Run(Posix(workers), EMPTY, evs), 0)
  {
    ParentReached(workers(p), workers(q));
    assert |"../1/R"| != |"R"|;
    evs := MixedRun(Posix(workers), Fresh(tenant, "R", 1), Fresh(tenant, "../1/R", 1), p, q);
  }
}
