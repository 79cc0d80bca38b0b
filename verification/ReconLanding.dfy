/** Landing reconciliation files (app/workers/recon_worker.py, app/services/recon_ingest.py): any number
    of workers, each going from one committed transaction or file operation to the next. */
module ReconLanding {
  import opened Prelude
  import opened ArchivePath
  import opened ReconFile

  datatype Status = NOTIFIED | DOWNLOADING | DOWNLOADED | PARSED | FAILED | SUPERSEDED

  /** What is kept in `column_check`. */
  datatype Note = NoNote | Checked(countMismatch: bool) | DownloadError | Drift | DataError(column: string) | ParseError

  datatype Task = Task(tenant: string, taskNo: string, version: int, diffCount: nat, status: Status, note: Note)

  // ---- the transactions ---------------------------------------------------------------------

  /** `uq_recon_task_ver` */
  predicate SameKey(x: Task, y: Task) {
    x.tenant == y.tenant && x.taskNo == y.taskNo && x.version == y.version
  }

  predicate Known(tasks: seq<Task>, t: Task) {
    exists i :: 0 <= i < |tasks| && SameKey(tasks[i], t)
  }

  /** `_set_status`: by id alone, whatever the status was. */
  function SetStatus(t: Task, s: Status, note: Note): Task {
    t.(status := s, note := if note.NoNote? then t.note else note)
  }

  /** An older version of the same reconciliation of the same tenant. */
  predicate Older(t: Task, landed: Task) {
    t.tenant == landed.tenant && t.taskNo == landed.taskNo && t.version < landed.version
  }

  function Supersede(t: Task, landed: Task): Task {
    if Older(t, landed) && t.status != SUPERSEDED then t.(status := SUPERSEDED) else t
  }

  function SupersedeAll(tasks: seq<Task>, landed: Task): seq<Task> {
    seq(|tasks|, i requires 0 <= i < |tasks| => Supersede(tasks[i], landed))
  }

  /** All recon rows after `id` landed `count` differences. */
  function Landed(tasks: seq<Task>, id: nat, count: nat): seq<Task>
    requires id < |tasks|
  {
    var t := SetStatus(tasks[id], PARSED, Checked(count != tasks[id].diffCount));
    SupersedeAll(tasks[id := t], t)
  }

  // ---- the workers --------------------------------------------------------------------------

  datatype Proc =
    | Fetching(id: nat)
    | Fetched(id: nat)
    | Checking(id: nat)
    | Opening(id: nat)
    | Holding(id: nat, wb: Workbook)
    | Failing(id: nat, note: Note)

  /** Which file a worker reaches under the archive name it makes of a number and a version; the name has
      no tenant in it. What files those are is left open here: see `ReconArchive`. */
  datatype Config = Config(fileOf: (nat, string, int) -> File)

  /** `children` are the rows of the three child tables by task. `got` and `landings` are histories:
      the verified download by recon row, and the recon rows that landed, in order. */
  datatype State = State(
    tasks: seq<Task>,
    children: map<nat, Landing>,
    procs: map<nat, Proc>,
    disk: map<File, Workbook>,
    got: map<nat, Workbook>,
    landings: seq<nat>)

  datatype Event =
    | Notify(task: Task)
    | Claim(pid: nat, id: nat)
    | Download(pid: nat, wb: Option<Workbook>)
    | SetDownloaded(pid: nat)
    | Precheck(pid: nat)
    | Open(pid: nat)
    | OpenFails(pid: nat)
    | Land(pid: nat)
    | LandAborts(pid: nat)
    | SetFailed(pid: nat)
    | Crash(pid: nat)

  function FileFor(g: Config, pid: nat, t: Task): File {
    g.fileOf(pid, t.taskNo, t.version)
  }

  /** The numbers and versions a notification gets through with: the request id has to match
      `^recon-result-.+-v\d+$`, and the rest has to fit its columns. */
  predicate Accepted(taskNo: string, version: int) {
    1 <= |taskNo| <= MAX_TASK_NO && '\n' !in taskNo && 1 <= version <= MAX_VERSION
  }

  const MAX_TASK_NO: nat := 64
  const MAX_VERSION: nat := 2147483647

  function Put(s: State, pid: nat, q: Proc): State {
    s.(procs := s.procs[pid := q])
  }

  function Drop(s: State, pid: nat): State {
    s.(procs := s.procs - {pid})
  }

  function LandStep(s: State, pid: nat, id: nat, wb: Workbook): State
    requires id < |s.tasks|
  {
    if s.tasks[id].status != DOWNLOADED then Drop(s, pid)
    else if !HeadersOk(wb) then s
    else
      match Convert(wb)
      case Bad(ShortRow) => Put(s, pid, Failing(id, ParseError))
      case Bad(DirtyAmount(column)) => Put(s, pid, Failing(id, DataError(column)))
      case Ok(landing) =>
        Drop(s, pid).(
          tasks := Landed(s.tasks, id, |landing.diffs|),
          children := s.children[id := landing],
          landings := s.landings + [id])
  }

  /** One step; an event whose worker is not at that point changes nothing. */
  function Step(g: Config, s: State, e: Event): State {
    match e
    case Notify(t) =>
      if !Accepted(t.taskNo, t.version) || Known(s.tasks, t) then s else s.(tasks := s.tasks + [t.(status := NOTIFIED, note := NoNote)])
    case Claim(pid, id) =>
      if pid in s.procs || id >= |s.tasks| || s.tasks[id].status != NOTIFIED then s
      else Put(s, pid, Fetching(id)).(tasks := s.tasks[id := s.tasks[id].(status := DOWNLOADING)])
    case _ =>
      if e.pid !in s.procs || s.procs[e.pid].id >= |s.tasks| then s else WorkerStep(g, s, e, s.procs[e.pid])
  }

  function WorkerStep(g: Config, s: State, e: Event, q: Proc): State
    requires !e.Notify? && !e.Claim? && q.id < |s.tasks|
  {
    match (e, q)
    case (Download(pid, None), Fetching(id)) => Put(s, pid, Failing(id, DownloadError))
    case (Download(pid, Some(wb)), Fetching(id)) =>
      Put(s, pid, Fetched(id)).(disk := s.disk[FileFor(g, pid, s.tasks[id]) := wb], got := s.got[id := wb])
    case (SetDownloaded(pid), Fetched(id)) =>
      Put(s, pid, Checking(id)).(tasks := s.tasks[id := SetStatus(s.tasks[id], DOWNLOADED, NoNote)])
    case (Precheck(pid), Checking(id)) =>
      if s.tasks[id].status == DOWNLOADED then Put(s, pid, Opening(id)) else Drop(s, pid)
    case (Open(pid), Opening(id)) =>
      if FileFor(g, pid, s.tasks[id]) !in s.disk then Put(s, pid, Failing(id, ParseError))
      else
        var wb := s.disk[FileFor(g, pid, s.tasks[id])];
        Put(s, pid, if HeadersOk(wb) then Holding(id, wb) else Failing(id, Drift))
    case (OpenFails(pid), Opening(id)) => Put(s, pid, Failing(id, ParseError))
    case (Land(pid), Holding(id, wb)) => LandStep(s, pid, id, wb)
    case (LandAborts(pid), Holding(id, _)) => Put(s, pid, Failing(id, ParseError))
    case (SetFailed(pid), Failing(id, note)) =>
      Drop(s, pid).(tasks := s.tasks[id := SetStatus(s.tasks[id], FAILED, note)])
    case (Crash(pid), _) => Drop(s, pid)
    case _ => s
  }

  function Run(g: Config, s: State, evs: seq<Event>): State {
    if evs == [] then s else Step(g, Run(g, s, evs[..|evs| - 1]), evs[|evs| - 1])
  }

  const EMPTY := State([], map[], map[], map[], map[], [])

  // ---- invariant ----------------------------------------------------------------------------

  ghost predicate KeysUnique(tasks: seq<Task>) {
    forall i, j :: 0 <= i < j < |tasks| ==> !SameKey(tasks[i], tasks[j])
  }

  /** A worker owns its recon row alone, and that row has not landed. */
  predicate ProcOk(s: State, q: Proc) {
    && q.id < |s.tasks|
    && q.id !in s.children
    && s.tasks[q.id].status in {DOWNLOADING, DOWNLOADED, SUPERSEDED}
    && (q.Holding? ==> HeadersOk(q.wb))
    && (!q.Fetching? && !q.Failing? ==> q.id in s.got)
  }

  predicate TaskOk(s: State, i: nat)
    requires i < |s.tasks|
  {
    && (s.tasks[i].status == PARSED ==> i in s.children)
    && (i in s.children ==> s.tasks[i].status in {PARSED, SUPERSEDED})
    && (i in s.children <==> i in s.landings)
  }

  ghost predicate Inv(s: State) {
    && KeysUnique(s.tasks)
    && (forall p :: p in s.procs ==> ProcOk(s, s.procs[p]))
    && (forall p, q :: p in s.procs && q in s.procs && p != q ==> s.procs[p].id != s.procs[q].id)
    && (forall i :: 0 <= i < |s.tasks| ==> TaskOk(s, i))
    && (forall i :: i in s.children ==> i < |s.tasks|)
    && (forall i :: i in s.landings ==> i < |s.tasks|)
    && NoDuplicates(s.landings)
  }

  /** What landed for a task is what was downloaded for it. */
  predicate Faithful(s: State, i: nat) {
    i in s.children ==> i in s.got && HeadersOk(s.got[i]) && Convert(s.got[i]) == Ok(s.children[i])
  }

  predicate FileOk(g: Config, s: State, pid: nat, q: Proc) {
    q.id < |s.tasks| && q.id in s.got ==>
      var file := FileFor(g, pid, s.tasks[q.id]);
      && (q.Fetched? || q.Checking? || q.Opening? ==> file in s.disk && s.disk[file] == s.got[q.id])
      && (q.Holding? ==> q.wb == s.got[q.id])
  }

  ghost predicate FilesOk(g: Config, s: State) {
    && (forall i :: Faithful(s, i))
    && (forall p :: p in s.procs ==> FileOk(g, s, p, s.procs[p]))
  }

  /** A step of worker `pid` that leaves child tables and landings alone, and changes no status but
      that of its own task or of one it claims. */
  ghost predicate Quiet(s: State, s': State, pid: nat) {
    && s'.children == s.children && s'.landings == s.landings
    && |s'.tasks| == |s.tasks|
    && (forall i :: 0 <= i < |s.tasks| ==> SameKey(s.tasks[i], s'.tasks[i]))
    && (forall i :: 0 <= i < |s.tasks| && s'.tasks[i] != s.tasks[i] ==>
          i !in s.children && s'.tasks[i].status != PARSED &&
          ((pid in s.procs && s.procs[pid].id == i) || s.tasks[i].status == NOTIFIED))
    && s.got.Keys <= s'.got.Keys
    && (forall p :: p in s'.procs && p != pid ==> p in s.procs && s'.procs[p] == s.procs[p])
    && (pid in s'.procs ==>
          && ProcOk(s', s'.procs[pid])
          && ((pid in s.procs && s.procs[pid].id == s'.procs[pid].id) ||
              (s'.procs[pid].id < |s.tasks| && s.tasks[s'.procs[pid].id].status == NOTIFIED)))
  }

  lemma QuietKeepsInv(s: State, s': State, pid: nat)
    requires Inv(s)
    requires Quiet(s, s', pid)
    ensures Inv(s')
  {
    SameKeysUnique(s.tasks, s'.tasks);
    hide KeysUnique, SameKey, HeadersOk, Convert;
    forall p | p in s'.procs && p != pid ensures ProcOk(s', s'.procs[p]) {
      assert ProcOk(s, s.procs[p]);
    }
    forall i | 0 <= i < |s'.tasks| ensures TaskOk(s', i) {
      assert TaskOk(s, i);
    }
    forall p, q | p in s'.procs && q in s'.procs && p != q ensures s'.procs[p].id != s'.procs[q].id {
      assert p in s.procs ==> ProcOk(s, s.procs[p]);
      assert q in s.procs ==> ProcOk(s, s.procs[q]);
    }
  }

  lemma NotifyKeepsInv(g: Config, s: State, t: Task)
    requires Inv(s)
    ensures Inv(Step(g, s, Notify(t)))
  {
    var s' := Step(g, s, Notify(t));
    if s' != s {
      forall p | p in s'.procs ensures ProcOk(s', s'.procs[p]) {
        assert ProcOk(s, s.procs[p]);
      }
      forall i | 0 <= i < |s'.tasks| ensures TaskOk(s', i) {
        if i < |s.tasks| { assert TaskOk(s, i); }
      }
      forall i, j | 0 <= i < j < |s'.tasks| ensures !SameKey(s'.tasks[i], s'.tasks[j]) {
        if j < |s.tasks| {
          assert !SameKey(s.tasks[i], s.tasks[j]);
        } else {
          assert !SameKey(s.tasks[i], t);
        }
      }
    }
  }

  /** Landing marks its own row PARSED, supersedes exactly the older versions of the same reconciliation of the
      same tenant, and changes no other task. */
  lemma LandedShape(tasks: seq<Task>, id: nat, count: nat)
    requires id < |tasks|
    ensures var tasks' := Landed(tasks, id, count);
            && |tasks'| == |tasks|
            && tasks'[id] == SetStatus(tasks[id], PARSED, Checked(count != tasks[id].diffCount))
            && (forall j :: 0 <= j < |tasks| && j != id ==>
                  tasks'[j] == if tasks[j].tenant == tasks[id].tenant && tasks[j].taskNo == tasks[id].taskNo &&
                                  tasks[j].version < tasks[id].version
                               then tasks[j].(status := SUPERSEDED) else tasks[j])
  {
  }

  lemma SameKeysUnique(tasks: seq<Task>, tasks': seq<Task>)
    requires KeysUnique(tasks) && |tasks'| == |tasks|
    requires forall i :: 0 <= i < |tasks| ==> SameKey(tasks[i], tasks'[i])
    ensures KeysUnique(tasks')
  {
    forall i, j | 0 <= i < j < |tasks'| ensures !SameKey(tasks'[i], tasks'[j]) {
      assert !SameKey(tasks[i], tasks[j]);
    }
  }

  /** `s'` is `s` after task `id` landed and its worker was done. */
  ghost predicate LandedBy(s: State, s': State, pid: nat, id: nat) {
    && pid in s.procs && s.procs[pid].id == id && id < |s.tasks| && id in s'.children
    && s' == Drop(s, pid).(tasks := s'.tasks, children := s.children[id := s'.children[id]], landings := s.landings + [id])
    && |s'.tasks| == |s.tasks| && s'.tasks[id].status == PARSED
    && (forall j :: 0 <= j < |s.tasks| ==> SameKey(s.tasks[j], s'.tasks[j]))
    && (forall j :: 0 <= j < |s.tasks| && j != id ==> s'.tasks[j].status in {s.tasks[j].status, SUPERSEDED})
  }

  lemma LandKeepsProcs(s: State, s': State, pid: nat, id: nat)
    requires Inv(s)
    requires LandedBy(s, s', pid, id)
    ensures forall p :: p in s'.procs ==> ProcOk(s', s'.procs[p])
    ensures forall p, q :: p in s'.procs && q in s'.procs && p != q ==> s'.procs[p].id != s'.procs[q].id
  {
    hide KeysUnique, SameKey, HeadersOk, TaskOk;
    forall p | p in s'.procs ensures ProcOk(s', s'.procs[p]) {
      assert ProcOk(s, s.procs[p]);
      assert s.procs[p].id != id;
    }
  }

  lemma LandKeepsRows(s: State, s': State, pid: nat, id: nat)
    requires Inv(s)
    requires LandedBy(s, s', pid, id)
    ensures forall i :: 0 <= i < |s'.tasks| ==> TaskOk(s', i)
    ensures NoDuplicates(s'.landings)
  {
    assert ProcOk(s, s.procs[pid]) && TaskOk(s, id);
    hide KeysUnique, SameKey, HeadersOk, Convert, ProcOk;
    forall i | 0 <= i < |s'.tasks| ensures TaskOk(s', i) {
      assert TaskOk(s, i);
    }
  }

  lemma LandKeepsInv(s: State, s': State, pid: nat, id: nat)
    requires Inv(s)
    requires LandedBy(s, s', pid, id)
    ensures Inv(s')
  {
    SameKeysUnique(s.tasks, s'.tasks);
    LandKeepsProcs(s, s', pid, id);
    LandKeepsRows(s, s', pid, id);
    hide KeysUnique, SameKey, HeadersOk, Convert, ProcOk, TaskOk, NoDuplicates;
  }

  /** A landing, as a step of the machine. */
  lemma LandShape(g: Config, s: State, pid: nat)
    requires pid in s.procs && s.procs[pid].Holding? && s.procs[pid].id < |s.tasks|
    requires var q := s.procs[pid]; s.tasks[q.id].status == DOWNLOADED && HeadersOk(q.wb) && Convert(q.wb).Ok?
    ensures var q := s.procs[pid];
            var landing := Convert(q.wb).value;
            Step(g, s, Land(pid)) ==
            Drop(s, pid).(tasks := Landed(s.tasks, q.id, |landing.diffs|), children := s.children[q.id := landing],
                          landings := s.landings + [q.id])
  {
    hide Convert, HeadersOk, Landed;
  }

  predicate WritesStatus(e: Event) {
    e.SetDownloaded? || e.SetFailed?
  }

  lemma StatusWriteIsQuiet(g: Config, s: State, e: Event)
    requires WritesStatus(e) && e.pid in s.procs && s.procs[e.pid].id < |s.tasks|
    requires ProcOk(s, s.procs[e.pid])
    ensures Quiet(s, Step(g, s, e), e.pid)
  {
    hide HeadersOk;
  }

  lemma SameTasksQuiet(s: State, s': State, pid: nat)
    requires s'.children == s.children && s'.landings == s.landings && s'.tasks == s.tasks
    requires s.got.Keys <= s'.got.Keys && pid in s.procs
    requires
      || s'.procs == s.procs - {pid}
      || (pid in s'.procs && s'.procs == s.procs[pid := s'.procs[pid]] && ProcOk(s', s'.procs[pid]) &&
          s.procs[pid].id == s'.procs[pid].id)
    ensures Quiet(s, s', pid)
  {
    hide ProcOk;
  }

  /** A step of a worker that neither writes a status nor lands. */
  lemma FileStepIsQuiet(g: Config, s: State, e: Event)
    requires !e.Notify? && !e.Claim? && !WritesStatus(e) && e.pid in s.procs && s.procs[e.pid].id < |s.tasks|
    requires ProcOk(s, s.procs[e.pid])
    requires e.Land? && s.procs[e.pid].Holding? ==>
               s.tasks[s.procs[e.pid].id].status != DOWNLOADED || Convert(s.procs[e.pid].wb).Bad?
    ensures Quiet(s, Step(g, s, e), e.pid)
  {
    hide Convert, HeadersOk, Quiet;
    assert s.procs == s.procs[e.pid := s.procs[e.pid]];
    SameTasksQuiet(s, Step(g, s, e), e.pid);
  }

  lemma LandedByWorker(g: Config, s: State, pid: nat)
    requires pid in s.procs && s.procs[pid].Holding? && s.procs[pid].id < |s.tasks|
    requires var q := s.procs[pid]; s.tasks[q.id].status == DOWNLOADED && HeadersOk(q.wb) && Convert(q.wb).Ok?
    ensures LandedBy(s, Step(g, s, Land(pid)), pid, s.procs[pid].id)
  {
    var q := s.procs[pid];
    LandShape(g, s, pid);
    LandedShape(s.tasks, q.id, |Convert(q.wb).value.diffs|);
    hide Convert, HeadersOk, Landed, Step;
  }

  lemma WorkerKeepsInv(g: Config, s: State, e: Event)
    requires Inv(s)
    requires !e.Notify? && !e.Claim? && e.pid in s.procs && s.procs[e.pid].id < |s.tasks|
    ensures Inv(Step(g, s, e))
  {
    var q := s.procs[e.pid];
    assert ProcOk(s, q);
    assert q.Holding? ==> HeadersOk(q.wb);
    hide Convert, HeadersOk, Landed, Inv, Quiet, Step, ProcOk, LandedBy;
    if e.Land? && q.Holding? && s.tasks[q.id].status == DOWNLOADED && Convert(q.wb).Ok? {
      LandedByWorker(g, s, e.pid);
      LandKeepsInv(s, Step(g, s, e), e.pid, q.id);
    } else {
      if WritesStatus(e) { StatusWriteIsQuiet(g, s, e); } else { FileStepIsQuiet(g, s, e); }
      QuietKeepsInv(s, Step(g, s, e), e.pid);
    }
  }

  lemma ClaimKeepsInv(g: Config, s: State, pid: nat, id: nat)
    requires Inv(s)
    ensures Inv(Step(g, s, Claim(pid, id)))
  {
    var s' := Step(g, s, Claim(pid, id));
    if s' != s {
      assert TaskOk(s, id);
      hide Inv;
      assert Quiet(s, s', pid);
      QuietKeepsInv(s, s', pid);
    }
  }

  /** Every step of every worker, in any interleaving, keeps the invariant. */
  lemma StepKeepsInv(g: Config, s: State, e: Event)
    requires Inv(s)
    ensures Inv(Step(g, s, e))
  {
    match e {
      case Notify(t) => NotifyKeepsInv(g, s, t);
      case Claim(pid, id) => ClaimKeepsInv(g, s, pid, id);
      case _ =>
        hide Inv, WorkerStep;
        if e.pid in s.procs && s.procs[e.pid].id < |s.tasks| {
          WorkerKeepsInv(g, s, e);
        }
    }
  }

  lemma {:induction false} RunKeepsInv(g: Config, evs: seq<Event>)
    ensures Inv(Run(g, EMPTY, evs))
  {
    if evs != [] {
      RunKeepsInv(g, evs[..|evs| - 1]);
      StepKeepsInv(g, Run(g, EMPTY, evs[..|evs| - 1]), evs[|evs| - 1]);
    }
  }

  // ---- what every run guarantees ------------------------------------------------------------

  /** In every reachable state a PARSED task has its child rows, a FAILED one has none, nor has any that
      is still on its way, and no task has landed twice. */
  lemma RowsGoWithStatus(g: Config, evs: seq<Event>, id: nat)
    requires id < |Run(g, EMPTY, evs).tasks|
    ensures var s := Run(g, EMPTY, evs);
            && (s.tasks[id].status == PARSED ==> id in s.children)
            && (s.tasks[id].status in {NOTIFIED, DOWNLOADING, DOWNLOADED, FAILED} ==> id !in s.children)
            && NoDuplicates(s.landings)
            && (id in s.children <==> id in s.landings)
  {
    RunKeepsInv(g, evs);
    assert TaskOk(Run(g, EMPTY, evs), id);
  }

  /** What landed is never touched again, and its task can only be superseded. */
  lemma LandedStays(g: Config, evs: seq<Event>, e: Event, id: nat)
    requires id in Run(g, EMPTY, evs).children
    ensures var s, s' := Run(g, EMPTY, evs), Step(g, Run(g, EMPTY, evs), e);
            && id in s'.children && s'.children[id] == s.children[id]
            && id < |s.tasks| && id < |s'.tasks|
            && s'.tasks[id] in {s.tasks[id], s.tasks[id].(status := SUPERSEDED)}
  {
    var s := Run(g, EMPTY, evs);
    RunKeepsInv(g, evs);
    assert TaskOk(s, id);
    hide Run;
    if !e.Notify? && !e.Claim? && e.pid in s.procs {
      var q := s.procs[e.pid];
      assert ProcOk(s, q);
      hide Inv, Step, Convert, Landed;
      if e.Land? && q.Holding? && s.tasks[q.id].status == DOWNLOADED && Convert(q.wb).Ok? {
        LandShape(g, s, e.pid);
        LandedShape(s.tasks, q.id, |Convert(q.wb).value.diffs|);
      } else if WritesStatus(e) {
        StatusWriteIsQuiet(g, s, e);
      } else {
        FileStepIsQuiet(g, s, e);
      }
    }
  }

  /** A landing changes, besides its own task, exactly the older versions of the same reconciliation of
      the same tenant, and of those only the status; a failed one changes no row at all. */
  lemma LandingTouchesOnlyOlder(g: Config, evs: seq<Event>, pid: nat, j: nat)
    requires var s := Run(g, EMPTY, evs); pid in s.procs && s.procs[pid].Holding? && j < |s.tasks| && j != s.procs[pid].id
    ensures var s, s' := Run(g, EMPTY, evs), Step(g, Run(g, EMPTY, evs), Land(pid));
            var id := s.procs[pid].id;
            && id < |s.tasks| && |s'.tasks| == |s.tasks|
            && s'.tasks[j] == (if id in s'.children && s.tasks[j].tenant == s.tasks[id].tenant &&
                                  s.tasks[j].taskNo == s.tasks[id].taskNo && s.tasks[j].version < s.tasks[id].version
                               then s.tasks[j].(status := SUPERSEDED) else s.tasks[j])
            && (j in s.children <==> j in s'.children) && (j in s.children ==> s'.children[j] == s.children[j])
            && (id !in s'.children ==> s'.tasks == s.tasks && s'.children == s.children)
  {
    var s := Run(g, EMPTY, evs);
    RunKeepsInv(g, evs);
    var q := s.procs[pid];
    assert ProcOk(s, q);
    assert HeadersOk(q.wb);
    hide Convert, HeadersOk, Run, Inv, Step, Landed;
    if s.tasks[q.id].status == DOWNLOADED && Convert(q.wb).Ok? {
      LandShape(g, s, pid);
      LandedShape(s.tasks, q.id, |Convert(q.wb).value.diffs|);
    } else {
      ChildrenStay(g, s, Land(pid));
    }
  }

  /** So no step of any worker, and in particular no landing, changes a task of a tenant and number that is
      not the one it works on. */
  lemma OthersStay(g: Config, evs: seq<Event>, e: Event, j: nat)
    requires var s := Run(g, EMPTY, evs);
             && j < |s.tasks|
             && (e.Claim? ==> e.id != j)
             && (!e.Notify? && !e.Claim? && e.pid in s.procs && s.procs[e.pid].id < |s.tasks| ==>
                   s.tasks[j].tenant != s.tasks[s.procs[e.pid].id].tenant || s.tasks[j].taskNo != s.tasks[s.procs[e.pid].id].taskNo)
    ensures var s, s' := Run(g, EMPTY, evs), Step(g, Run(g, EMPTY, evs), e);
            j < |s'.tasks| && s'.tasks[j] == s.tasks[j]
  {
    var s := Run(g, EMPTY, evs);
    RunKeepsInv(g, evs);
    if e.Land? && e.pid in s.procs && s.procs[e.pid].Holding? {
      assert ProcOk(s, s.procs[e.pid]);
      LandingTouchesOnlyOlder(g, evs, e.pid, j);
    } else {
      hide Run, Inv, Convert, HeadersOk, LandStep;
    }
  }

  /** A notification adds one NOTIFIED task if its number is a text of 1 to 64 characters on one line, its
      version fits a positive INTEGER, and the tenant has no task of that number and version; otherwise it
      changes nothing. */
  lemma NotifyReads(g: Config, s: State, t: Task)
    ensures var s' := Step(g, s, Notify(t));
            if 1 <= |t.taskNo| <= 64 && (forall i :: 0 <= i < |t.taskNo| ==> t.taskNo[i] as int != 10) &&
               1 <= t.version <= 2147483647 &&
               (forall i :: 0 <= i < |s.tasks| ==>
                  s.tasks[i].tenant != t.tenant || s.tasks[i].taskNo != t.taskNo || s.tasks[i].version != t.version)
            then s' == s.(tasks := s.tasks + [Task(t.tenant, t.taskNo, t.version, t.diffCount, NOTIFIED, NoNote)])
            else s' == s
  {
    assert '\n' as int == 10;
    assert '\n' in t.taskNo <==> exists i :: 0 <= i < |t.taskNo| && t.taskNo[i] as int == 10;
    assert Known(s.tasks, t) <==> exists i :: 0 <= i < |s.tasks| && SameKey(s.tasks[i], t);
  }

  // ---- the right file -----------------------------------------------------------------------

  /** Steps that write no file: only the worker's own new state has to be looked at. */
  lemma FilesStay(g: Config, s: State, s': State, pid: nat)
    requires FilesOk(g, s)
    requires s'.got == s.got && s'.disk == s.disk && s'.children == s.children
    requires |s.tasks| <= |s'.tasks| && forall i :: 0 <= i < |s.tasks| ==> SameKey(s.tasks[i], s'.tasks[i])
    requires forall p :: p in s'.procs && p != pid ==> p in s.procs && s'.procs[p] == s.procs[p]
    requires forall p :: p in s.procs ==> s.procs[p].id < |s.tasks|
    requires pid in s'.procs ==> FileOk(g, s', pid, s'.procs[pid])
    ensures FilesOk(g, s')
  {
    hide Convert, HeadersOk;
    forall p | p in s'.procs && p != pid ensures FileOk(g, s', p, s'.procs[p]) {
      assert FileOk(g, s, p, s.procs[p]);
    }
    forall i ensures Faithful(s', i) {
      assert Faithful(s, i);
    }
  }

  ghost predicate OwnFileStays(g: Config, s: State, s': State, pid: nat) {
    && s'.got == s.got && s'.disk == s.disk
    && (forall p :: p in s'.procs && p != pid ==> p in s.procs && s'.procs[p] == s.procs[p])
    && (pid in s'.procs ==> FileOk(g, s', pid, s'.procs[pid]))
  }

  lemma StatusWriteKeepsFile(g: Config, s: State, e: Event)
    requires WritesStatus(e)
    requires e.pid in s.procs ==> FileOk(g, s, e.pid, s.procs[e.pid])
    ensures OwnFileStays(g, s, Step(g, s, e), e.pid)
  {
    hide Convert, HeadersOk, Landed, LandStep;
  }

  lemma FileStepKeepsFile(g: Config, s: State, e: Event)
    requires !e.Notify? && !e.Claim? && !e.Download? && !e.Land? && !WritesStatus(e)
    requires e.pid in s.procs ==> FileOk(g, s, e.pid, s.procs[e.pid]) && ProcOk(s, s.procs[e.pid])
    ensures OwnFileStays(g, s, Step(g, s, e), e.pid)
  {
    hide Convert, HeadersOk, Landed, LandStep;
    assert Step(g, s, e).tasks == s.tasks;
  }

  lemma FailedLandKeepsFile(g: Config, s: State, pid: nat)
    requires pid in s.procs ==> FileOk(g, s, pid, s.procs[pid])
    requires pid in s.procs && s.procs[pid].Holding? ==> HeadersOk(s.procs[pid].wb)
    requires pid in s.procs && s.procs[pid].Holding? && s.procs[pid].id < |s.tasks| ==>
               s.tasks[s.procs[pid].id].status != DOWNLOADED || Convert(s.procs[pid].wb).Bad?
    ensures OwnFileStays(g, s, Step(g, s, Land(pid)), pid)
  {
    hide Convert, HeadersOk, Landed;
  }

  lemma OwnFileOk(g: Config, s: State, e: Event)
    requires !e.Notify? && !e.Claim? && !e.Download?
    requires e.pid in s.procs ==> FileOk(g, s, e.pid, s.procs[e.pid]) && ProcOk(s, s.procs[e.pid])
    requires e.Land? && e.pid in s.procs && s.procs[e.pid].Holding? ==>
               s.tasks[s.procs[e.pid].id].status != DOWNLOADED || Convert(s.procs[e.pid].wb).Bad?
    ensures OwnFileStays(g, s, Step(g, s, e), e.pid)
  {
    hide Step, OwnFileStays, FileOk;
    if WritesStatus(e) {
      StatusWriteKeepsFile(g, s, e);
    } else if e.Land? {
      FailedLandKeepsFile(g, s, e.pid);
    } else {
      FileStepKeepsFile(g, s, e);
    }
  }

  lemma NotifyFilesStay(g: Config, s: State, t: Task)
    requires FilesOk(g, s)
    requires forall p :: p in s.procs ==> s.procs[p].id < |s.tasks|
    ensures FilesOk(g, Step(g, s, Notify(t)))
  {
    hide Convert, HeadersOk;
    TasksKeepKeys(g, s, Notify(t));
    if 0 in s.procs { assert FileOk(g, s, 0, s.procs[0]); }
    FilesStay(g, s, Step(g, s, Notify(t)), 0);
  }

  lemma ClaimFilesStay(g: Config, s: State, pid: nat, id: nat)
    requires FilesOk(g, s)
    requires forall p :: p in s.procs ==> s.procs[p].id < |s.tasks|
    ensures FilesOk(g, Step(g, s, Claim(pid, id)))
  {
    hide Convert, HeadersOk;
    TasksKeepKeys(g, s, Claim(pid, id));
    FileOfProc(g, s, pid);
    FilesStay(g, s, Step(g, s, Claim(pid, id)), pid);
  }

  lemma FileOfProc(g: Config, s: State, pid: nat)
    requires FilesOk(g, s)
    ensures pid in s.procs ==> FileOk(g, s, pid, s.procs[pid])
  {
  }

  lemma LandFilesStay(g: Config, s: State, pid: nat)
    requires Inv(s) && FilesOk(g, s)
    requires pid in s.procs && s.procs[pid].Holding? && s.procs[pid].id < |s.tasks|
    requires var q := s.procs[pid]; s.tasks[q.id].status == DOWNLOADED && Convert(q.wb).Ok?
    ensures FilesOk(g, Step(g, s, Land(pid)))
  {
    var q := s.procs[pid];
    var s' := Step(g, s, Land(pid));
    assert ProcOk(s, q) && FileOk(g, s, pid, q);
    LandShape(g, s, pid);
    LandedShape(s.tasks, q.id, |Convert(q.wb).value.diffs|);
    forall p | p in s.procs ensures s.procs[p].id < |s.tasks| {
      assert ProcOk(s, s.procs[p]);
    }
    hide Convert, HeadersOk, Landed, Step, Inv, ProcOk;
    var s1 := s'.(children := s.children);
    FilesStay(g, s, s1, pid);
    AddLanding(g, s1, q.id, s'.children[q.id]);
  }

  lemma AddLanding(g: Config, s: State, id: nat, landing: Landing)
    requires FilesOk(g, s)
    requires id in s.got && HeadersOk(s.got[id]) && Convert(s.got[id]) == Ok(landing)
    ensures FilesOk(g, s.(children := s.children[id := landing]))
  {
    hide HeadersOk, Convert;
    var s' := s.(children := s.children[id := landing]);
    forall i ensures Faithful(s', i) {
      assert Faithful(s, i);
    }
    forall p | p in s'.procs ensures FileOk(g, s', p, s'.procs[p]) {
      assert FileOk(g, s, p, s.procs[p]);
    }
  }

  lemma QuietFilesStay(g: Config, s: State, e: Event)
    requires Inv(s) && FilesOk(g, s)
    requires !e.Download?
    ensures FilesOk(g, Step(g, s, e))
  {
    var s' := Step(g, s, e);
    forall p | p in s.procs ensures s.procs[p].id < |s.tasks| {
      assert ProcOk(s, s.procs[p]);
    }
    if e.Notify? {
      NotifyFilesStay(g, s, e.task);
    } else if e.Claim? {
      ClaimFilesStay(g, s, e.pid, e.id);
    } else {
      if e.pid in s.procs { assert ProcOk(s, s.procs[e.pid]); }
      FileOfProc(g, s, e.pid);
      hide Step, Inv, FilesOk, FileOk, HeadersOk, Convert;
      if e.Land? && e.pid in s.procs && s.procs[e.pid].Holding? &&
         s.tasks[s.procs[e.pid].id].status == DOWNLOADED && Convert(s.procs[e.pid].wb).Ok? {
        LandFilesStay(g, s, e.pid);
      } else {
        TasksKeepKeys(g, s, e);
        OwnFileOk(g, s, e);
        ChildrenStay(g, s, e);
        FilesStay(g, s, s', e.pid);
      }
    }
  }

  lemma ChildrenStay(g: Config, s: State, e: Event)
    requires e.Land? && e.pid in s.procs && s.procs[e.pid].Holding? && s.procs[e.pid].id < |s.tasks| ==>
               s.tasks[s.procs[e.pid].id].status != DOWNLOADED || !HeadersOk(s.procs[e.pid].wb) || Convert(s.procs[e.pid].wb).Bad?
    ensures Step(g, s, e).children == s.children
    ensures e.Land? ==> Step(g, s, e).tasks == s.tasks
  {
    hide Convert, HeadersOk, Landed;
  }

  lemma TasksKeepKeys(g: Config, s: State, e: Event)
    ensures var s' := Step(g, s, e);
            |s.tasks| <= |s'.tasks| && forall i :: 0 <= i < |s.tasks| ==> SameKey(s.tasks[i], s'.tasks[i])
  {
    if e.Land? {
      LandKeepsKeys(g, s, e.pid);
    }
    hide Convert, HeadersOk, Landed, LandStep;
  }

  lemma LandKeepsKeys(g: Config, s: State, pid: nat)
    ensures var s' := Step(g, s, Land(pid));
            |s'.tasks| == |s.tasks| && forall i :: 0 <= i < |s.tasks| ==> SameKey(s.tasks[i], s'.tasks[i])
  {
    hide Landed, Step;
    if pid in s.procs && s.procs[pid].Holding? && s.procs[pid].id < |s.tasks| &&
       s.tasks[s.procs[pid].id].status == DOWNLOADED && HeadersOk(s.procs[pid].wb) && Convert(s.procs[pid].wb).Ok? {
      LandShape(g, s, pid);
      LandedShape(s.tasks, s.procs[pid].id, |Convert(s.procs[pid].wb).value.diffs|);
    } else {
      ChildrenStay(g, s, Land(pid));
    }
    hide Convert, HeadersOk;
  }

  /** No two workers with different rows reach one file. */
  ghost predicate Apart(g: Config, tasks: seq<Task>) {
    forall p, q, i, j :: p != q && 0 <= i < |tasks| && 0 <= j < |tasks| && i != j ==>
      FileFor(g, p, tasks[i]) != FileFor(g, q, tasks[j])
  }

  lemma DownloadFilesStay(g: Config, s: State, pid: nat, wb: Option<Workbook>)
    requires Apart(g, s.tasks)
    requires Inv(s) && FilesOk(g, s)
    ensures FilesOk(g, Step(g, s, Download(pid, wb)))
  {
    var s' := Step(g, s, Download(pid, wb));
    hide Convert, HeadersOk;
    if pid in s.procs { assert ProcOk(s, s.procs[pid]); }
    forall p | p in s'.procs ensures FileOk(g, s', p, s'.procs[p]) {
      assert FileOk(g, s, p, s.procs[p]) && ProcOk(s, s.procs[p]);
    }
    forall i ensures Faithful(s', i) {
      assert Faithful(s, i);
    }
  }

  lemma ApartBefore(g: Config, s: State, e: Event)
    requires Apart(g, Step(g, s, e).tasks)
    ensures Apart(g, s.tasks)
  {
    var s' := Step(g, s, e);
    TasksKeepKeys(g, s, e);
    hide Step;
    forall p, q, i, j | p != q && 0 <= i < |s.tasks| && 0 <= j < |s.tasks| && i != j
      ensures FileFor(g, p, s.tasks[i]) != FileFor(g, q, s.tasks[j])
    {
      assert SameKey(s.tasks[i], s'.tasks[i]) && SameKey(s.tasks[j], s'.tasks[j]);
      assert FileFor(g, p, s'.tasks[i]) != FileFor(g, q, s'.tasks[j]);
    }
  }

  lemma {:induction false} RunKeepsFiles(g: Config, evs: seq<Event>)
    requires Apart(g, Run(g, EMPTY, evs).tasks)
    ensures FilesOk(g, Run(g, EMPTY, evs))
  {
    if evs != [] {
      var s, e := Run(g, EMPTY, evs[..|evs| - 1]), evs[|evs| - 1];
      ApartBefore(g, s, e);
      RunKeepsFiles(g, evs[..|evs| - 1]);
      RunKeepsInv(g, evs[..|evs| - 1]);
      hide Inv, FilesOk, Step, Apart;
      if e.Download? {
        DownloadFilesStay(g, s, e.pid, e.wb);
      } else {
        QuietFilesStay(g, s, e);
      }
    }
  }

  /** When no two workers with different rows reach one file, what landed is, row by row, the data of the
      very file that was downloaded and verified for it. */
  lemma LandedIsTheFile(g: Config, evs: seq<Event>, id: nat)
    requires Apart(g, Run(g, EMPTY, evs).tasks)
    ensures Faithful(Run(g, EMPTY, evs), id)
  {
    RunKeepsFiles(g, evs);
  }
}
