/** Collecting import results under a token lock with a timeout (app/services/wedap_delivery.py): any
    number of collectors, each of which may stall past the timeout, be overtaken, crash or come back. */
module ResultCollection {
  import opened Prelude

  datatype Task = Task(
    tenant: string,
    batch: string,
    request: string,
    delivered: bool,
    collectedAt: Option<int>,
    lockedAt: Option<int>,
    lockToken: Option<nat>)

  datatype AlertKind = IMPORT_FAILED | RESULT_OVERDUE | OtherKind(name: string)

  /** `uq_wedap_delivery_alert` */
  datatype AlertKey = AlertKey(tenant: string, batch: string, kind: AlertKind)

  datatype Alert = Alert(key: AlertKey, detail: string, firstAlertedAt: int)

  /** What a fetch brings: nothing yet, an error (of the fetch or of parsing), or a result. */
  datatype Fetched = NotReady | FetchFailed | Parsed(failed: bool, detail: string)

  // ---- the transactions ---------------------------------------------------------------------

  predicate Claimable(t: Task, now: int, timeout: int) {
    t.collectedAt.None? && (t.lockedAt.Some? ==> t.lockedAt.value < now - timeout)
  }

  function ClaimTask(t: Task, now: int, token: nat): Task {
    t.(lockedAt := Some(now), lockToken := Some(token))
  }

  predicate Holds(t: Task, token: nat) {
    t.lockToken == Some(token) && t.collectedAt.None?
  }

  function ReleaseTask(t: Task, token: nat): Task {
    if Holds(t, token) then t.(lockedAt := None, lockToken := None) else t
  }

  function MarkTask(t: Task, token: nat, now: int): Task {
    if Holds(t, token) then t.(collectedAt := Some(now), lockedAt := None, lockToken := None) else t
  }

  predicate Alerted(alerts: seq<Alert>, key: AlertKey) {
    exists i :: 0 <= i < |alerts| && alerts[i].key == key
  }

  /** `_record_delivery_alert`: insert unless the unique key is taken. */
  function RecordAlert(alerts: seq<Alert>, a: Alert): seq<Alert> {
    if Alerted(alerts, a.key) then alerts else alerts + [a]
  }

  predicate Enqueued(tasks: seq<Task>, tenant: string, batch: string) {
    exists i :: 0 <= i < |tasks| && SameBatch(tasks[i], tenant, batch)
  }

  predicate SameBatch(t: Task, tenant: string, batch: string) {
    t.tenant == tenant && t.batch == batch
  }

  predicate RequestTaken(tasks: seq<Task>, tenant: string, request: string) {
    exists i :: 0 <= i < |tasks| && tasks[i].tenant == tenant && tasks[i].request == request
  }

  /** `enqueue_delivery`: a known batch number is left as it is; a new one under a request number that is
      taken violates the second unique key and is rolled back. */
  function EnqueueTask(tasks: seq<Task>, tenant: string, batch: string, request: string): seq<Task> {
    if Enqueued(tasks, tenant, batch) || RequestTaken(tasks, tenant, request) then tasks
    else tasks + [Task(tenant, batch, request, false, None, None, None)]
  }

  function FailedKey(t: Task): AlertKey {
    AlertKey(t.tenant, t.batch, IMPORT_FAILED)
  }

  // ---- the collectors -----------------------------------------------------------------------

  /** A collector between two steps of one round of its loop. */
  datatype Proc =
    | Fetching(task: nat, token: nat)
    | HasResult(task: nat, token: nat, failed: bool, detail: string)
    | Posting(task: nat, token: nat, failed: bool)
    | HasPosted(task: nat, token: nat, failed: bool)
    | Releasing(task: nat, token: nat)

  /** A history entry: `token` marked `task`, after parsing a result that said `failed`. */
  datatype Marking = Marking(task: nat, token: nat, failed: bool, at: int)

  /** `posted` and `markings` are histories: the claims whose post to recon succeeded, and the
      writes of `result_collected_at`. */
  datatype State = State(
    tasks: seq<Task>,
    alerts: seq<Alert>,
    procs: map<nat, Proc>,
    nextToken: nat,
    posted: set<(nat, nat)>,
    markings: seq<Marking>)

  /** `Enqueue` and `Deliver` are the rest of the service: new batches, and what the delivery dispatchers
      write into a task's status, in whatever order. */
  datatype Event =
    | Enqueue(tenant: string, batch: string, request: string)
    | Deliver(task: nat, delivered: bool)
    | Claim(pid: nat, task: nat, now: int, timeout: int)
    | Fetch(pid: nat, result: Fetched)
    | RaiseAlert(pid: nat, now: int)
    | AlertFails(pid: nat)
    | Post(pid: nat, ok: bool)
    | Mark(pid: nat, now: int)
    | Release(pid: nat)
    | OtherAlert(alert: Alert)
    | Crash(pid: nat)

  function Put(s: State, pid: nat, q: Proc): State {
    s.(procs := s.procs[pid := q])
  }

  function Drop(s: State, pid: nat): State {
    s.(procs := s.procs - {pid})
  }

  /** One step; an event whose collector is not at that point changes nothing. */
  function Step(s: State, e: Event): State {
    match e
    case Enqueue(tenant, batch, request) => s.(tasks := EnqueueTask(s.tasks, tenant, batch, request))
    case Deliver(i, delivered) =>
      if i >= |s.tasks| then s else s.(tasks := s.tasks[i := s.tasks[i].(delivered := delivered)])
    case Claim(pid, i, now, timeout) =>
      if pid in s.procs || i >= |s.tasks| || !Claimable(s.tasks[i], now, timeout) then s
      else
        Put(s, pid, Fetching(i, s.nextToken)).(
          tasks := s.tasks[i := ClaimTask(s.tasks[i], now, s.nextToken)], nextToken := s.nextToken + 1)
    case OtherAlert(a) => s.(alerts := RecordAlert(s.alerts, a))
    case _ =>
      if e.pid !in s.procs || s.procs[e.pid].task >= |s.tasks| then s else ProcStep(s, e, s.procs[e.pid])
  }

  /** The events of a collector that is under way. */
  predicate ByProc(e: Event) {
    !e.Enqueue? && !e.Deliver? && !e.Claim? && !e.OtherAlert?
  }

  function ProcStep(s: State, e: Event, q: Proc): State
    requires ByProc(e) && q.task < |s.tasks|
  {
    match (e, q)
    case (Fetch(pid, Parsed(failed, detail)), Fetching(i, t)) =>
      Put(s, pid, if failed then HasResult(i, t, true, detail) else Posting(i, t, false))
    case (Fetch(pid, _), Fetching(i, t)) => Put(s, pid, Releasing(i, t))
    case (RaiseAlert(pid, now), HasResult(i, t, failed, detail)) =>
      Put(s, pid, Posting(i, t, failed)).(
        alerts := RecordAlert(s.alerts, Alert(FailedKey(s.tasks[i]), detail, now)))
    case (AlertFails(pid), HasResult(i, t, _, _)) => Put(s, pid, Releasing(i, t))
    case (Post(pid, ok), Posting(i, t, failed)) =>
      if ok then Put(s, pid, HasPosted(i, t, failed)).(posted := s.posted + {(i, t)})
      else Put(s, pid, Releasing(i, t))
    case (Mark(pid, now), HasPosted(i, t, failed)) =>
      var marks := Holds(s.tasks[i], t);
      Drop(s, pid).(
        tasks := s.tasks[i := MarkTask(s.tasks[i], t, now)],
        markings := if marks then s.markings + [Marking(i, t, failed, now)] else s.markings)
    case (Release(pid), Releasing(i, t)) =>
      Drop(s, pid).(tasks := s.tasks[i := ReleaseTask(s.tasks[i], t)])
    case (Crash(pid), _) => Drop(s, pid)
    case _ => s
  }

  function Run(s: State, evs: seq<Event>): State {
    if evs == [] then s else Step(Run(s, evs[..|evs| - 1]), evs[|evs| - 1])
  }

  /** Tasks nobody has tried to collect yet, whatever was alerted about them before. */
  ghost predicate Initial(s: State) {
    && s == State(s.tasks, s.alerts, map[], 0, {}, [])
    && (forall i :: 0 <= i < |s.tasks| ==> s.tasks[i].collectedAt.None? && s.tasks[i].lockedAt.None? && s.tasks[i].lockToken.None?)
    && BatchesUnique(s.tasks) && RequestsUnique(s.tasks) && AlertsUnique(s.alerts)
  }

  // ---- the steps in words -------------------------------------------------------------------

  /** What each step writes into the tasks: a new batch unless its number or its request is taken; the delivery
      status; a claim of a task that is not collected and not locked, or locked longer than the timeout; and
      the mark or the release of a task by the collector whose token it still carries. */
  lemma TasksRead(s: State, e: Event)
    ensures Step(s, e).tasks ==
            match e
            case Enqueue(tenant, batch, request) =>
              if exists i :: 0 <= i < |s.tasks| && s.tasks[i].tenant == tenant && (s.tasks[i].batch == batch || s.tasks[i].request == request)
              then s.tasks else s.tasks + [Task(tenant, batch, request, false, None, None, None)]
            case Deliver(i, delivered) =>
              if i < |s.tasks| then s.tasks[i := s.tasks[i].(delivered := delivered)] else s.tasks
            case Claim(pid, i, now, timeout) =>
              if pid !in s.procs && i < |s.tasks| && s.tasks[i].collectedAt == None &&
                 (s.tasks[i].lockedAt == None || s.tasks[i].lockedAt.value < now - timeout)
              then s.tasks[i := s.tasks[i].(lockedAt := Some(now), lockToken := Some(s.nextToken))] else s.tasks
            case Mark(pid, now) =>
              if pid in s.procs && s.procs[pid].HasPosted? && CarriesToken(s, s.procs[pid]) then
                var i := s.procs[pid].task;
                s.tasks[i := s.tasks[i].(collectedAt := Some(now), lockedAt := None, lockToken := None)]
              else s.tasks
            case Release(pid) =>
              if pid in s.procs && s.procs[pid].Releasing? && CarriesToken(s, s.procs[pid]) then
                var i := s.procs[pid].task;
                s.tasks[i := s.tasks[i].(lockedAt := None, lockToken := None)]
              else s.tasks
            case _ => s.tasks
  {
    if e.Enqueue? {
      var taken := exists i :: 0 <= i < |s.tasks| && s.tasks[i].tenant == e.tenant && (s.tasks[i].batch == e.batch || s.tasks[i].request == e.request);
      if Enqueued(s.tasks, e.tenant, e.batch) || RequestTaken(s.tasks, e.tenant, e.request) {
        assert taken;
      }
    }
  }

  predicate CarriesToken(s: State, q: Proc) {
    q.task < |s.tasks| && s.tasks[q.task].collectedAt == None && s.tasks[q.task].lockToken == Some(q.token)
  }

  /** A collector posts only what it parsed, raises the alert of its own batch before it posts a FAILED import,
      marks only after a successful post, and gives its lock back after every failure. */
  lemma CollectorsRead(s: State, e: Event, pid: nat)
    requires ByProc(e) && e.pid == pid && pid in s.procs && s.procs[pid].task < |s.tasks|
    ensures var q, s' := s.procs[pid], Step(s, e);
            && (e.Fetch? && q.Fetching? ==>
                  && s'.alerts == s.alerts
                  && s'.procs == s.procs[pid :=
                       if e.result.Parsed? then
                         if e.result.failed then HasResult(q.task, q.token, true, e.result.detail) else Posting(q.task, q.token, false)
                       else Releasing(q.task, q.token)])
            && (e.RaiseAlert? && q.HasResult? ==>
                  var key := AlertKey(s.tasks[q.task].tenant, s.tasks[q.task].batch, IMPORT_FAILED);
                  && s'.procs == s.procs[pid := Posting(q.task, q.token, q.failed)]
                  && s'.alerts == if exists i :: 0 <= i < |s.alerts| && s.alerts[i].key == key then s.alerts
                                  else s.alerts + [Alert(key, q.detail, e.now)])
            && (e.AlertFails? && q.HasResult? ==> s'.procs == s.procs[pid := Releasing(q.task, q.token)])
            && (e.Post? && q.Posting? ==>
                  s'.procs == s.procs[pid := if e.ok then HasPosted(q.task, q.token, q.failed) else Releasing(q.task, q.token)])
            && (!e.RaiseAlert? ==> s'.alerts == s.alerts)
  {
  }

  // ---- invariant ----------------------------------------------------------------------------

  ghost predicate AlertsUnique(alerts: seq<Alert>) {
    forall i, j :: 0 <= i < j < |alerts| ==> alerts[i].key != alerts[j].key
  }

  /** `uq_wedap_delivery_batch` */
  ghost predicate BatchesUnique(tasks: seq<Task>) {
    forall i, j :: 0 <= i < j < |tasks| ==> !SameBatch(tasks[i], tasks[j].tenant, tasks[j].batch)
  }

  /** `uq_wedap_delivery_request` */
  ghost predicate RequestsUnique(tasks: seq<Task>) {
    forall i, j :: 0 <= i < j < |tasks| ==> !(tasks[i].tenant == tasks[j].tenant && tasks[i].request == tasks[j].request)
  }

  predicate ProcOk(s: State, q: Proc) {
    && q.task < |s.tasks|
    && q.token < s.nextToken
    && ((q.Posting? || q.HasPosted?) && q.failed ==> Alerted(s.alerts, FailedKey(s.tasks[q.task])))
    && (q.HasPosted? ==> (q.task, q.token) in s.posted)
  }

  /** A task is collected exactly when some marking says so, and then it is unlocked. */
  ghost predicate TaskOk(s: State, i: nat)
    requires i < |s.tasks|
  {
    && (s.tasks[i].collectedAt.Some? <==> exists m :: m in s.markings && m.task == i)
    && (s.tasks[i].collectedAt.Some? ==> s.tasks[i].lockToken.None? && s.tasks[i].lockedAt.None?)
    && (s.tasks[i].lockToken.Some? ==> s.tasks[i].lockToken.value < s.nextToken)
    && (s.tasks[i].lockToken.Some? <==> s.tasks[i].lockedAt.Some?)
  }

  predicate MarkingOk(s: State, m: Marking) {
    && m.task < |s.tasks|
    && s.tasks[m.task].collectedAt == Some(m.at)
    && (m.task, m.token) in s.posted
    && (m.failed ==> Alerted(s.alerts, FailedKey(s.tasks[m.task])))
  }

  ghost predicate Inv(s: State) {
    && AlertsUnique(s.alerts) && BatchesUnique(s.tasks) && RequestsUnique(s.tasks)
    && (forall p :: p in s.procs ==> ProcOk(s, s.procs[p]))
    && (forall p, q :: p in s.procs && q in s.procs && p != q ==> s.procs[p].token != s.procs[q].token)
    && (forall i :: 0 <= i < |s.tasks| ==> TaskOk(s, i))
    && (forall m :: m in s.markings ==> MarkingOk(s, m))
    && (forall j, k :: 0 <= j < k < |s.markings| ==> s.markings[j].task != s.markings[k].task)
  }

  lemma RecordKeepsAlerts(alerts: seq<Alert>, a: Alert)
    requires AlertsUnique(alerts)
    ensures AlertsUnique(RecordAlert(alerts, a))
    ensures Alerted(RecordAlert(alerts, a), a.key)
    ensures forall k :: Alerted(alerts, k) ==> Alerted(RecordAlert(alerts, a), k)
  {
    var r := RecordAlert(alerts, a);
    if r != alerts {
      assert r[|alerts|] == a;
      forall k | Alerted(alerts, k) ensures Alerted(r, k) {
        var i :| 0 <= i < |alerts| && alerts[i].key == k;
        assert r[i].key == k;
      }
    }
  }

  /** A task keeps its identity and, once collected, its collection time and its freedom from locks. */
  predicate StaysCollected(t: Task, t': Task) {
    && t'.tenant == t.tenant && t'.batch == t.batch && t'.request == t.request
    && (t.collectedAt.Some? ==> t' == t.(delivered := t'.delivered))
  }

  /** What a step may do to the tasks, the alerts and the histories. */
  ghost predicate Evolves(s: State, s': State) {
    && |s'.tasks| >= |s.tasks|
    && (forall i :: 0 <= i < |s.tasks| ==> StaysCollected(s.tasks[i], s'.tasks[i]))
    && s.posted <= s'.posted
    && s.markings <= s'.markings
    && (forall k :: Alerted(s.alerts, k) ==> Alerted(s'.alerts, k))
  }

  lemma MarkKeepsInv(s: State, pid: nat, now: int)
    requires Inv(s) && pid in s.procs && s.procs[pid].HasPosted?
    ensures var s' := Step(s, Mark(pid, now)); Inv(s') && Evolves(s, s')
  {
    var q := s.procs[pid];
    var s' := Step(s, Mark(pid, now));
    assert ProcOk(s, q);
    assert TaskOk(s, q.task);
    if Holds(s.tasks[q.task], q.token) {
      var m := Marking(q.task, q.token, q.failed, now);
      assert s'.markings[|s.markings|] == m;
      forall x | x in s'.markings ensures MarkingOk(s', x) {
        if x != m { assert MarkingOk(s, x); }
      }
      forall i | 0 <= i < |s'.tasks| ensures TaskOk(s', i) {
        assert TaskOk(s, i);
        assert forall x :: x in s.markings ==> x in s'.markings;
      }
    } else {
      assert s'.tasks == s.tasks;
      forall i | 0 <= i < |s'.tasks| ensures TaskOk(s', i) {
        assert TaskOk(s, i);
      }
    }
  }

  /** Steps that change at most the alerts, a claim or a lock, and the collector's own state. */
  lemma QuietKeepsInv(s: State, s': State, pid: nat)
    requires Inv(s)
    requires s'.markings == s.markings && s.posted <= s'.posted && s.nextToken <= s'.nextToken
    requires |s'.tasks| == |s.tasks|
    requires forall i :: 0 <= i < |s.tasks| ==>
               s'.tasks[i] == s.tasks[i].(lockedAt := s'.tasks[i].lockedAt, lockToken := s'.tasks[i].lockToken) &&
               TaskLockOk(s.tasks[i], s'.tasks[i], s'.nextToken)
    requires AlertsUnique(s'.alerts) && (forall k :: Alerted(s.alerts, k) ==> Alerted(s'.alerts, k))
    requires forall p :: p in s'.procs && p != pid ==> p in s.procs && s'.procs[p] == s.procs[p]
    requires pid in s'.procs ==> ProcOk(s', s'.procs[pid])
    requires pid in s'.procs ==>
               (pid in s.procs && s.procs[pid].token == s'.procs[pid].token) || s'.procs[pid].token >= s.nextToken
    ensures Inv(s') && Evolves(s, s')
  {
    forall i | 0 <= i < |s'.tasks| ensures TaskOk(s', i) {
      assert TaskOk(s, i);
    }
    forall m | m in s'.markings ensures MarkingOk(s', m) {
      assert MarkingOk(s, m);
    }
    forall p | p in s'.procs && p != pid ensures ProcOk(s', s'.procs[p]) && s'.procs[p].token < s.nextToken {
      assert ProcOk(s, s.procs[p]);
    }
  }

  /** A claim or a release of a task. */
  predicate TaskLockOk(t: Task, t': Task, nextToken: nat) {
    || t' == t
    || (t.collectedAt.None? && (t'.lockToken.Some? <==> t'.lockedAt.Some?) &&
        (t'.lockToken.Some? ==> t'.lockToken.value < nextToken))
  }

  /** Every step of every collector, in any interleaving, keeps the invariant. */
  lemma StepKeepsInv(s: State, e: Event)
    requires Inv(s)
    ensures Inv(Step(s, e)) && Evolves(s, Step(s, e))
  {
    var s' := Step(s, e);
    match e {
      case Enqueue(tenant, batch, request) => EnqueueKeepsInv(s, tenant, batch, request);
      case Deliver(i, delivered) => DeliverKeepsInv(s, i, delivered);
      case OtherAlert(a) => OtherAlertKeepsInv(s, a);
      case Claim(pid, i, now, timeout) => QuietKeepsInv(s, s', pid);
      case _ =>
        if e.pid in s.procs && s.procs[e.pid].task < |s.tasks| {
          ProcKeepsInv(s, e);
        }
    }
  }

  /** A new batch comes in beside whatever is going on; it is refused only for its request number. */
  lemma EnqueueKeepsInv(s: State, tenant: string, batch: string, request: string)
    requires Inv(s)
    ensures var s' := Step(s, Enqueue(tenant, batch, request));
            && Inv(s') && Evolves(s, s')
            && (Enqueued(s'.tasks, tenant, batch) <==>
                Enqueued(s.tasks, tenant, batch) || !RequestTaken(s.tasks, tenant, request))
  {
    var s' := Step(s, Enqueue(tenant, batch, request));
    if !Enqueued(s.tasks, tenant, batch) && !RequestTaken(s.tasks, tenant, request) {
      var n := |s.tasks|;
      assert SameBatch(s'.tasks[n], tenant, batch);
      forall p | p in s'.procs ensures ProcOk(s', s'.procs[p]) {
        assert ProcOk(s, s.procs[p]);
      }
      forall m | m in s'.markings ensures MarkingOk(s', m) {
        assert MarkingOk(s, m);
      }
      forall i | 0 <= i < |s'.tasks| ensures TaskOk(s', i) {
        if i < n {
          assert TaskOk(s, i);
        } else {
          assert forall m :: m in s.markings ==> MarkingOk(s, m);
        }
      }
    }
  }

  lemma DeliverKeepsInv(s: State, i: nat, delivered: bool)
    requires Inv(s)
    ensures Inv(Step(s, Deliver(i, delivered))) && Evolves(s, Step(s, Deliver(i, delivered)))
  {
    var s' := Step(s, Deliver(i, delivered));
    forall p | p in s'.procs ensures ProcOk(s', s'.procs[p]) {
      assert ProcOk(s, s.procs[p]);
    }
    forall m | m in s'.markings ensures MarkingOk(s', m) {
      assert MarkingOk(s, m);
    }
    forall j | 0 <= j < |s'.tasks| ensures TaskOk(s', j) {
      assert TaskOk(s, j);
    }
  }

  lemma OtherAlertKeepsInv(s: State, a: Alert)
    requires Inv(s)
    ensures Inv(Step(s, OtherAlert(a))) && Evolves(s, Step(s, OtherAlert(a)))
  {
    var s' := Step(s, OtherAlert(a));
    RecordKeepsAlerts(s.alerts, a);
    forall p | p in s'.procs ensures ProcOk(s', s'.procs[p]) {
      assert ProcOk(s, s.procs[p]);
    }
    forall i | 0 <= i < |s'.tasks| ensures TaskOk(s', i) {
      assert TaskOk(s, i);
    }
    forall m | m in s'.markings ensures MarkingOk(s', m) {
      assert MarkingOk(s, m);
    }
  }

  lemma ProcKeepsInv(s: State, e: Event)
    requires Inv(s)
    requires ByProc(e) && e.pid in s.procs && s.procs[e.pid].task < |s.tasks|
    ensures Inv(Step(s, e)) && Evolves(s, Step(s, e))
  {
    var s' := Step(s, e);
    var q := s.procs[e.pid];
    assert ProcOk(s, q);
    if e.Mark? && q.HasPosted? {
      MarkKeepsInv(s, e.pid, e.now);
    } else {
      if e.RaiseAlert? && q.HasResult? {
        RecordKeepsAlerts(s.alerts, Alert(FailedKey(s.tasks[q.task]), q.detail, e.now));
      }
      QuietKeepsInv(s, s', e.pid);
    }
  }

  lemma InitialOk(s: State)
    requires Initial(s)
    ensures Inv(s)
  {
  }

  lemma {:induction false} RunKeepsInv(s: State, evs: seq<Event>)
    requires Inv(s)
    ensures Inv(Run(s, evs)) && Evolves(s, Run(s, evs))
  {
    hide Step;
    if evs != [] {
      RunKeepsInv(s, evs[..|evs| - 1]);
      StepKeepsInv(Run(s, evs[..|evs| - 1]), evs[|evs| - 1]);
      EvolvesTrans(s, Run(s, evs[..|evs| - 1]), Run(s, evs));
    }
  }

  lemma EvolvesTrans(s: State, t: State, u: State)
    requires Evolves(s, t) && Evolves(t, u)
    ensures Evolves(s, u)
  {
  }

  // ---- what every run guarantees ------------------------------------------------------------

  ghost predicate ReachableState(s: State) {
    exists s0: State, evs: seq<Event> :: Initial(s0) && s == Run(s0, evs)
  }

  lemma ReachableOk(s: State)
    requires ReachableState(s)
    ensures Inv(s)
  {
    var s0: State, evs: seq<Event> :| Initial(s0) && s == Run(s0, evs);
    InitialOk(s0);
    RunKeepsInv(s0, evs);
  }

  /** A task's collection time is written at most once; its writer had posted the result it parsed, and
      when that result was FAILED the one alert of the batch was already there. */
  lemma CollectedOnce(s: State, i: nat)
    requires ReachableState(s)
    requires i < |s.tasks|
    ensures s.tasks[i].collectedAt.Some? <==> exists m :: m in s.markings && m.task == i
    ensures forall j, k :: 0 <= j < |s.markings| && 0 <= k < |s.markings| && s.markings[j].task == s.markings[k].task ==> j == k
    ensures forall m :: m in s.markings ==>
              && (m.task, m.token) in s.posted
              && m.task < |s.tasks| && s.tasks[m.task].collectedAt == Some(m.at)
              && (m.failed ==> Alerted(s.alerts, FailedKey(s.tasks[m.task])))
    ensures AlertsUnique(s.alerts)
  {
    ReachableOk(s);
    assert TaskOk(s, i);
    forall m | m in s.markings ensures MarkingOk(s, m) {
    }
  }

  /** Nor is a batch collected under two rows: its number is the key of its one row, whenever the row came
      in and however often it was enqueued. */
  lemma BatchCollectedOnce(s: State, j: nat, k: nat)
    requires ReachableState(s)
    requires j < |s.markings| && k < |s.markings|
    requires s.markings[j].task < |s.tasks| && s.markings[k].task < |s.tasks|
    requires var t := s.tasks[s.markings[k].task]; SameBatch(s.tasks[s.markings[j].task], t.tenant, t.batch)
    ensures j == k
  {
    ReachableOk(s);
  }

  /** Once collected, a task keeps its collection time and is never locked again, whoever comes back late. */
  lemma CollectionIsFinal(s: State, evs: seq<Event>, i: nat)
    requires ReachableState(s)
    requires i < |s.tasks| && s.tasks[i].collectedAt.Some?
    ensures i < |Run(s, evs).tasks|
    ensures Run(s, evs).tasks[i] == s.tasks[i].(delivered := Run(s, evs).tasks[i].delivered)
  {
    ReachableOk(s);
    RunKeepsInv(s, evs);
  }

  /** Only a collector that holds the batch's lock at that moment, and whose post succeeded, can collect
      it. */
  lemma OnlyTheHolderCollects(s: State, e: Event, i: nat)
    requires ReachableState(s)
    requires i < |s.tasks| && s.tasks[i].collectedAt.None?
    requires i < |Step(s, e).tasks| && Step(s, e).tasks[i].collectedAt.Some?
    ensures e.Mark? && e.pid in s.procs && s.procs[e.pid].HasPosted? && s.procs[e.pid].task == i
    ensures s.tasks[i].lockToken == Some(s.procs[e.pid].token)
    ensures (i, s.procs[e.pid].token) in s.posted
  {
    ReachableOk(s);
    assert e.Mark? && e.pid in s.procs ==> ProcOk(s, s.procs[e.pid]);
  }

  /** No two collectors hold one task. */
  lemma HolderIsUnique(s: State, p: nat, q: nat)
    requires ReachableState(s)
    requires p in s.procs && q in s.procs && s.procs[p].task == s.procs[q].task < |s.tasks|
    requires Holds(s.tasks[s.procs[p].task], s.procs[p].token) && Holds(s.tasks[s.procs[q].task], s.procs[q].token)
    ensures p == q
  {
    ReachableOk(s);
  }

  /** A collector that was overtaken changes no task, neither by marking nor by releasing. */
  lemma OvertakenChangesNothing(s: State, e: Event)
    requires (e.Mark? || e.Release?) && e.pid in s.procs && s.procs[e.pid].task < |s.tasks|
    requires !Holds(s.tasks[s.procs[e.pid].task], s.procs[e.pid].token)
    ensures Step(s, e).tasks == s.tasks && Step(s, e).markings == s.markings
  {
  }

  // ---- the code -----------------------------------------------------------------------------

  predicate Scanned(t: Task, now: int, timeout: int) {
    t.delivered && Claimable(t, now, timeout)
  }

  /** The ids a round works through: the first `limit` that qualify. */
  function Candidates(tasks: seq<Task>, now: int, timeout: int, limit: nat): (ids: seq<nat>)
    ensures |ids| <= limit
    ensures forall i :: 0 <= i < |ids| ==> ids[i] < |tasks| && Scanned(tasks[ids[i]], now, timeout)
    ensures forall i, j :: 0 <= i < j < |ids| ==> ids[i] < ids[j]
  {
    if tasks == [] then []
    else
      var n := |tasks| - 1;
      var ids := Candidates(tasks[..n], now, timeout, limit);
      if |ids| < limit && Scanned(tasks[n], now, timeout) then ids + [n] else ids
  }

  /** What the outside world has in store for one task in this round. */
  datatype Fortune = Fortune(fetched: Fetched, postOk: bool)

  predicate Succeeds(o: Fortune) {
    o.fetched.Parsed? && o.postOk
  }

  /** What an undisturbed round makes of a task it claimed. */
  function Collected(t: Task, o: Fortune, now: int): Task {
    t.(collectedAt := if Succeeds(o) then Some(now) else t.collectedAt, lockedAt := None, lockToken := None)
  }

  type Fortunes = nat -> Fortune

  function AfterFirst(tasks: seq<Task>, ids: seq<nat>, n: nat, world: Fortunes, now: int): (r: seq<Task>)
    requires n <= |ids|
    requires forall i :: 0 <= i < |ids| ==> ids[i] < |tasks|
    ensures |r| == |tasks|
  {
    if n == 0 then tasks
    else
      var before := AfterFirst(tasks, ids, n - 1, world, now);
      before[ids[n - 1] := Collected(before[ids[n - 1]], world(ids[n - 1]), now)]
  }

  lemma {:induction false} EachOnce(tasks: seq<Task>, ids: seq<nat>, n: nat, world: Fortunes, now: int, i: nat)
    requires n <= |ids| && i < |tasks|
    requires forall j :: 0 <= j < |ids| ==> ids[j] < |tasks|
    requires forall j, k :: 0 <= j < k < |ids| ==> ids[j] < ids[k]
    ensures AfterFirst(tasks, ids, n, world, now)[i] == if i in ids[..n] then Collected(tasks[i], world(i), now) else tasks[i]
  {
    if n > 0 {
      assert ids[..n] == ids[..n - 1] + [ids[n - 1]];
      EachOnce(tasks, ids, n - 1, world, now, i);
    }
  }

  function CountSuccesses(ids: seq<nat>, world: Fortunes): nat {
    if ids == [] then 0
    else CountSuccesses(ids[..|ids| - 1], world) + if Succeeds(world(ids[|ids| - 1])) then 1 else 0
  }

  lemma ScannedAreClaimable(tasks: seq<Task>, ids: seq<nat>, now: int, timeout: int)
    requires forall i :: 0 <= i < |ids| ==> ids[i] < |tasks| && Scanned(tasks[ids[i]], now, timeout)
    ensures forall i :: 0 <= i < |ids| ==> Claimable(tasks[ids[i]], now, timeout)
  {
  }

  /** Every FAILED import among the rows `ids` has its alert. */
  ghost predicate FailuresAlerted(alerts: seq<Alert>, tasks: seq<Task>, ids: seq<nat>, world: Fortunes) {
    forall i :: i in ids && i < |tasks| && world(i).fetched.Parsed? && world(i).fetched.failed ==>
      Alerted(alerts, FailedKey(tasks[i]))
  }

  lemma OneMoreFailure(alerts: seq<Alert>, alerts': seq<Alert>, tasks: seq<Task>, ids: seq<nat>, n: nat, world: Fortunes)
    requires n < |ids| && ids[n] < |tasks|
    requires FailuresAlerted(alerts, tasks, ids[..n], world)
    requires forall k :: Alerted(alerts, k) ==> Alerted(alerts', k)
    requires world(ids[n]).fetched.Parsed? && world(ids[n]).fetched.failed ==> Alerted(alerts', FailedKey(tasks[ids[n]]))
    ensures FailuresAlerted(alerts', tasks, ids[..n + 1], world)
    ensures CountSuccesses(ids[..n + 1], world) == CountSuccesses(ids[..n], world) + if Succeeds(world(ids[n])) then 1 else 0
  {
    assert ids[..n + 1] == ids[..n] + [ids[n]];
    assert ids[..n + 1][..n] == ids[..n];
  }

  /** `after` is what an undisturbed round over the rows `ids` makes of `before`. */
  ghost predicate RoundDone(before: seq<Task>, after: seq<Task>, ids: seq<nat>, world: Fortunes, now: int) {
    && |after| == |before|
    && forall i :: 0 <= i < |before| ==>
         after[i] == if i in ids then Collected(before[i], world(i), now) else before[i]
  }

  lemma RoundIsDone(tasks: seq<Task>, ids: seq<nat>, world: Fortunes, now: int)
    requires forall j :: 0 <= j < |ids| ==> ids[j] < |tasks|
    requires forall j, k :: 0 <= j < k < |ids| ==> ids[j] < ids[k]
    ensures RoundDone(tasks, AfterFirst(tasks, ids, |ids|, world, now), ids, world, now)
  {
    assert ids[..|ids|] == ids;
    forall i | 0 <= i < |tasks|
      ensures AfterFirst(tasks, ids, |ids|, world, now)[i] == if i in ids then Collected(tasks[i], world(i), now) else tasks[i]
    {
      EachOnce(tasks, ids, |ids|, world, now, i);
    }
  }

  /** A delivered task whose result is still to be collected and whose lock, if any, is older than the timeout. */
  predicate Collectable(t: Task, now: int, timeout: int) {
    t.delivered && t.collectedAt == None && (t.lockedAt == None || t.lockedAt.value < now - timeout)
  }

  function CountCollectable(tasks: seq<Task>, now: int, timeout: int): nat {
    if tasks == [] then 0
    else CountCollectable(tasks[..|tasks| - 1], now, timeout) + if Collectable(tasks[|tasks| - 1], now, timeout) then 1 else 0
  }

  /** The `i`th task is among the first `limit` that are collectable. */
  predicate Chosen(tasks: seq<Task>, i: nat, now: int, timeout: int, limit: nat)
    requires i < |tasks|
  {
    Collectable(tasks[i], now, timeout) && CountCollectable(tasks[..i], now, timeout) < limit
  }

  lemma {:induction false} CandidatesAreChosen(tasks: seq<Task>, now: int, timeout: int, limit: nat)
    ensures |Candidates(tasks, now, timeout, limit)| == Least(limit, CountCollectable(tasks, now, timeout))
    ensures forall i: nat :: i < |tasks| ==> (i in Candidates(tasks, now, timeout, limit) <==> Chosen(tasks, i, now, timeout, limit))
  {
    if tasks != [] {
      var n := |tasks| - 1;
      CandidatesAreChosen(tasks[..n], now, timeout, limit);
      var ids := Candidates(tasks[..n], now, timeout, limit);
      assert forall i: nat :: i < n ==> tasks[..n][..i] == tasks[..i] && tasks[..n][i] == tasks[i];
      forall i: nat | i < n ensures Chosen(tasks[..n], i, now, timeout, limit) <==> Chosen(tasks, i, now, timeout, limit) {
      }
    }
  }

  function Least(a: nat, b: nat): nat { if a <= b then a else b }

  /** What a lone round leaves of a task: a chosen one is collected if its result was parsed and posted, and
      unlocked in any case; all others stay. */
  function AfterRound(tasks: seq<Task>, i: nat, o: Fortune, now: int, timeout: int, limit: nat): Task
    requires i < |tasks|
  {
    if !Chosen(tasks, i, now, timeout, limit) then tasks[i]
    else if o.fetched.Parsed? && o.postOk then tasks[i].(collectedAt := Some(now), lockedAt := None, lockToken := None)
    else tasks[i].(lockedAt := None, lockToken := None)
  }

  lemma RoundReads(before: seq<Task>, after: seq<Task>, alerts: seq<Alert>, world: Fortunes, now: int, timeout: int, limit: nat)
    requires var ids := Candidates(before, now, timeout, limit);
             RoundDone(before, after, ids, world, now) && FailuresAlerted(alerts, before, ids, world)
    ensures |after| == |before|
    ensures forall i: nat :: i < |after| ==> after[i] == AfterRound(before, i, world(i), now, timeout, limit)
    ensures forall i: nat :: i < |before| && Chosen(before, i, now, timeout, limit) && world(i).fetched.Parsed? && world(i).fetched.failed ==>
              Alerted(alerts, AlertKey(before[i].tenant, before[i].batch, IMPORT_FAILED))
  {
    CandidatesAreChosen(before, now, timeout, limit);
    hide Candidates, Chosen;
  }

  class Collector {
    var tasks: seq<Task>
    var alerts: seq<Alert>

    constructor (tasks: seq<Task>, alerts: seq<Alert>)
      ensures this.tasks == tasks && this.alerts == alerts
    {
      this.tasks, this.alerts := tasks, alerts;
    }

    /** `_claim_result` */
    method ClaimResult(i: nat, now: int, token: nat, timeout: int) returns (claimed: bool)
      modifies this`tasks
      ensures claimed <==> i < |old(tasks)| && Claimable(old(tasks)[i], now, timeout)
      ensures tasks == if claimed then old(tasks)[i := ClaimTask(old(tasks)[i], now, token)] else old(tasks)
    {
      claimed := i < |tasks| && tasks[i].collectedAt.None? &&
                 (tasks[i].lockedAt.None? || tasks[i].lockedAt.value < now - timeout);
      if claimed {
        tasks := tasks[i := tasks[i].(lockedAt := Some(now), lockToken := Some(token))];
      }
    }

    /** `_release_result_lock` */
    method ReleaseResultLock(i: nat, token: nat)
      requires i < |tasks|
      modifies this`tasks
      ensures tasks == old(tasks)[i := ReleaseTask(old(tasks)[i], token)]
    {
      if tasks[i].lockToken == Some(token) && tasks[i].collectedAt.None? {
        tasks := tasks[i := tasks[i].(lockedAt := None, lockToken := None)];
      }
    }

    /** `mark_result_collected` */
    method MarkResultCollected(i: nat, token: nat, now: int) returns (marked: bool)
      requires i < |tasks|
      modifies this`tasks
      ensures marked <==> Holds(old(tasks)[i], token)
      ensures tasks == old(tasks)[i := MarkTask(old(tasks)[i], token, now)]
    {
      marked := tasks[i].lockToken == Some(token) && tasks[i].collectedAt.None?;
      if marked {
        tasks := tasks[i := tasks[i].(collectedAt := Some(now), lockedAt := None, lockToken := None)];
      }
    }

    /** `_record_delivery_alert` */
    method RecordDeliveryAlert(a: Alert) returns (first: bool)
      modifies this`alerts
      ensures first <==> !Alerted(old(alerts), a.key)
      ensures alerts == RecordAlert(old(alerts), a)
    {
      var i := 0;
      while i < |alerts|
        invariant 0 <= i <= |alerts|
        invariant forall j :: 0 <= j < i ==> alerts[j].key != a.key
      {
        if alerts[i].key == a.key {
          return false;
        }
        i := i + 1;
      }
      alerts := alerts + [a];
      first := true;
    }

    /** One task of a round, with nobody in between. */
    method CollectOne(i: nat, o: Fortune, now: int, timeout: int, token: nat) returns (collected: bool)
      requires i < |tasks| && Claimable(tasks[i], now, timeout)
      requires AlertsUnique(alerts)
      modifies this
      ensures tasks == old(tasks)[i := Collected(old(tasks)[i], o, now)]
      ensures collected <==> Succeeds(o)
      ensures AlertsUnique(alerts) && (forall k :: Alerted(old(alerts), k) ==> Alerted(alerts, k))
      ensures o.fetched.Parsed? && o.fetched.failed ==> Alerted(alerts, FailedKey(old(tasks)[i]))
    {
      var claimed := ClaimResult(i, now, token, timeout);
      if !o.fetched.Parsed? {
        ReleaseResultLock(i, token);
        return false;
      }
      if o.fetched.failed {
        var a := Alert(FailedKey(tasks[i]), o.fetched.detail, now);
        RecordKeepsAlerts(alerts, a);
        var _ := RecordDeliveryAlert(a);
      }
      if !o.postOk {
        ReleaseResultLock(i, token);
        return false;
      }
      collected := MarkResultCollected(i, token, now);
    }

    method ScanCandidates(now: int, timeout: int, limit: nat) returns (ids: seq<nat>)
      ensures ids == Candidates(tasks, now, timeout, limit)
    {
      ids := [];
      var n := 0;
      while n < |tasks|
        invariant 0 <= n <= |tasks|
        invariant ids == Candidates(tasks[..n], now, timeout, limit)
      {
        assert tasks[..n + 1][..n] == tasks[..n];
        if |ids| < limit && Scanned(tasks[n], now, timeout) {
          ids := ids + [n];
        }
        n := n + 1;
      }
      assert tasks[..n] == tasks;
    }

    /** `collect_results_once` alone: every candidate is claimed, and collected exactly when its result
        was parsed and posted; all others stay; every FAILED import it saw has its one alert. */
    method CollectResultsOnce(world: Fortunes, now: int, timeout: int, limit: nat, nextToken: nat)
      returns (collected: nat)
      requires AlertsUnique(alerts)
      modifies this
      ensures |tasks| == |old(tasks)|
      ensures forall i: nat :: i < |tasks| ==> tasks[i] == AfterRound(old(tasks), i, world(i), now, timeout, limit)
      ensures collected == CountSuccesses(Candidates(old(tasks), now, timeout, limit), world)
      ensures AlertsUnique(alerts)
      ensures forall i: nat :: i < |tasks| && Chosen(old(tasks), i, now, timeout, limit) && world(i).fetched.Parsed? && world(i).fetched.failed ==>
                Alerted(alerts, AlertKey(old(tasks)[i].tenant, old(tasks)[i].batch, IMPORT_FAILED))
    {
      hide Collected, Alerted, AlertsUnique, Scanned, RoundDone, FailuresAlerted, CountSuccesses;
      var ids := ScanCandidates(now, timeout, limit);
      ghost var before := tasks;
      ScannedAreClaimable(before, ids, now, timeout);
      NothingSeenYet(alerts, before, world);
      collected := 0;
      var n := 0;
      while n < |ids|
        invariant 0 <= n <= |ids|
        invariant tasks == AfterFirst(before, ids, n, world, now)
        invariant collected == CountSuccesses(ids[..n], world)
        invariant AlertsUnique(alerts) && FailuresAlerted(alerts, before, ids[..n], world)
      {
        var i := ids[n];
        ghost var alertsBefore := alerts;
        EachOnce(before, ids, n, world, now, i);
        var done := CollectOne(i, world(i), now, timeout, nextToken + n);
        OneMoreFailure(alertsBefore, alerts, before, ids, n, world);
        collected := collected + if done then 1 else 0;
        n := n + 1;
      }
      assert ids[..n] == ids;
      RoundIsDone(before, ids, world, now);
      RoundReads(before, tasks, alerts, world, now, timeout, limit);
    }
  }

  lemma NothingSeenYet(alerts: seq<Alert>, tasks: seq<Task>, world: Fortunes)
    ensures FailuresAlerted(alerts, tasks, [], world) && CountSuccesses([], world) == 0
  {
  }
}
