/** The ingest worker as the code runs it, on task and child tables updated in place
    (app/workers/recon_worker.py, app/services/recon_ingest.py). */
module ReconIngest {
  import opened Prelude
  import opened ReconFile
  import opened ReconLanding

  /** What one undisturbed pass over a NOTIFIED task makes of the tables. */
  function Ingested(tasks: seq<Task>, children: map<nat, Landing>, id: nat, file: Option<Workbook>)
    : (seq<Task>, map<nat, Landing>)
    requires id < |tasks|
  {
    var t := tasks[id].(status := DOWNLOADED);
    match file
    case None => (tasks[id := SetStatus(t, FAILED, DownloadError)], children)
    case Some(wb) =>
      if !HeadersOk(wb) then (tasks[id := SetStatus(t, FAILED, Drift)], children)
      else
        match Convert(wb)
        case Bad(ShortRow) => (tasks[id := SetStatus(t, FAILED, ParseError)], children)
        case Bad(DirtyAmount(c)) => (tasks[id := SetStatus(t, FAILED, DataError(c))], children)
        case Ok(landing) => (Landed(tasks[id := t], id, |landing.diffs|), children[id := landing])
  }

  function NotifiedIds(tasks: seq<Task>): (ids: seq<nat>)
    ensures forall i :: 0 <= i < |ids| ==> ids[i] < |tasks| && tasks[ids[i]].status == NOTIFIED
    ensures forall i, j :: 0 <= i < j < |ids| ==> ids[i] < ids[j]
    ensures forall k :: 0 <= k < |tasks| && tasks[k].status == NOTIFIED ==> k in ids
  {
    if tasks == [] then []
    else
      var n := |tasks| - 1;
      NotifiedIds(tasks[..n]) + if tasks[n].status == NOTIFIED then [n] else []
  }

  lemma IngestedIgnoresStatus(tasks: seq<Task>, children: map<nat, Landing>, id: nat, s: Status, file: Option<Workbook>)
    requires id < |tasks|
    ensures Ingested(tasks[id := tasks[id].(status := s)], children, id, file) == Ingested(tasks, children, id, file)
  {
    var u := tasks[id := tasks[id].(status := s)];
    var t := tasks[id].(status := DOWNLOADED);
    assert u[id].(status := DOWNLOADED) == t;
    assert u[id := t] == tasks[id := t];
    assert u[id := SetStatus(t, FAILED, DownloadError)] == tasks[id := SetStatus(t, FAILED, DownloadError)];
    assert u[id := SetStatus(t, FAILED, Drift)] == tasks[id := SetStatus(t, FAILED, Drift)];
    assert u[id := SetStatus(t, FAILED, ParseError)] == tasks[id := SetStatus(t, FAILED, ParseError)];
    forall c: string ensures u[id := SetStatus(t, FAILED, DataError(c))] == tasks[id := SetStatus(t, FAILED, DataError(c))] {
    }
    hide Landed, Convert, HeadersOk;
  }

  class Tables {
    var tasks: seq<Task>
    var children: map<nat, Landing>

    constructor ()
      ensures tasks == [] && children == map[]
    {
      tasks, children := [], map[];
    }

    /** `_set_status` */
    method SetStatus(id: nat, s: Status, note: Note)
      requires id < |tasks|
      modifies this`tasks
      ensures tasks == old(tasks)[id := ReconLanding.SetStatus(old(tasks)[id], s, note)]
    {
      var t := tasks[id].(status := s);
      if !note.NoNote? {
        t := t.(note := note);
      }
      tasks := tasks[id := t];
    }

    /** `_atomic_claim` */
    method AtomicClaim(id: nat) returns (claimed: bool)
      requires id < |tasks|
      modifies this`tasks
      ensures claimed <==> old(tasks)[id].status == NOTIFIED
      ensures tasks == if claimed then old(tasks)[id := old(tasks)[id].(status := DOWNLOADING)] else old(tasks)
    {
      claimed := tasks[id].status == NOTIFIED;
      if claimed {
        tasks := tasks[id := tasks[id].(status := DOWNLOADING)];
      }
    }

    /** The update that supersedes older versions. */
    method SupersedeOlder(landed: Task)
      modifies this`tasks
      ensures tasks == SupersedeAll(old(tasks), landed)
    {
      var i := 0;
      while i < |tasks|
        invariant 0 <= i <= |tasks| == |old(tasks)|
        invariant forall j :: 0 <= j < i ==> tasks[j] == Supersede(old(tasks)[j], landed)
        invariant forall j :: i <= j < |tasks| ==> tasks[j] == old(tasks)[j]
      {
        if Older(tasks[i], landed) && tasks[i].status != SUPERSEDED {
          tasks := tasks[i := tasks[i].(status := SUPERSEDED)];
        }
        i := i + 1;
      }
    }

    /** The loops that build the child rows, in the order of the sheets. */
    method BuildRows(wb: Workbook) returns (r: Converted<Landing>)
      requires HeadersOk(wb)
      ensures r == Convert(wb)
    {
      var diffRows := CollectRows(wb[DIFFERENCES]);
      var wedapRows := CollectRows(wb[WEDAP_SOURCE]);
      var bankRows := CollectRows(wb[BANK_SOURCE]);
      var diffs := ConvertRows(DiffOf, diffRows);
      if diffs.Bad? {
        return Bad(diffs.problem);
      }
      var wedaps := ConvertRows(WedapOf, wedapRows);
      if wedaps.Bad? {
        return Bad(wedaps.problem);
      }
      var banks := ConvertRows(BankOf, bankRows);
      if banks.Bad? {
        return Bad(banks.problem);
      }
      r := Ok(Landing(diffs.value, wedaps.value, banks.value));
    }

    /** `parse_and_land`, and what the worker does about its exceptions */
    method ParseAndLand(id: nat, wb: Workbook)
      requires id < |tasks|
      modifies this
      ensures old(tasks)[id].status != DOWNLOADED ==> tasks == old(tasks) && children == old(children)
      ensures old(tasks)[id].status == DOWNLOADED ==>
                (tasks, children) == Ingested(old(tasks), old(children), id, Some(wb))
    {
      if tasks[id].status != DOWNLOADED {
        return;
      }
      hide Convert;
      assert tasks[id := tasks[id].(status := DOWNLOADED)] == tasks;
      if !HeadersOk(wb) {
        SetStatus(id, FAILED, Drift);
        return;
      }
      var built := BuildRows(wb);
      match built {
        case Bad(DirtyAmount(column)) => SetStatus(id, FAILED, DataError(column));
        case Bad(ShortRow) => SetStatus(id, FAILED, ParseError);
        case Ok(landing) =>
          children := children[id := landing];
          SetStatus(id, PARSED, Checked(|landing.diffs| != tasks[id].diffCount));
          SupersedeOlder(tasks[id]);
      }
    }

    /** One pass of the loop over the snapshot, with nobody in between. */
    method IngestOne(id: nat, file: Option<Workbook>) returns (claimed: bool)
      requires id < |tasks|
      modifies this
      ensures claimed <==> old(tasks)[id].status == NOTIFIED
      ensures (tasks, children) ==
              if claimed then Ingested(old(tasks), old(children), id, file) else (old(tasks), old(children))
    {
      claimed := AtomicClaim(id);
      if !claimed {
        return;
      }
      IngestedIgnoresStatus(old(tasks), children, id, DOWNLOADED, file);
      match file {
        case None =>
          SetStatus(id, FAILED, DownloadError);
          assert tasks == old(tasks)[id := ReconLanding.SetStatus(old(tasks)[id].(status := DOWNLOADED), FAILED, DownloadError)];
        case Some(wb) =>
          SetStatus(id, DOWNLOADED, NoNote);
          assert tasks == old(tasks)[id := old(tasks)[id].(status := DOWNLOADED)];
          hide Ingested;
          ParseAndLand(id, wb);
      }
    }

    method Snapshot() returns (ids: seq<nat>)
      ensures ids == NotifiedIds(tasks)
    {
      ids := [];
      var n := 0;
      while n < |tasks|
        invariant 0 <= n <= |tasks|
        invariant ids == NotifiedIds(tasks[..n])
      {
        assert tasks[..n + 1][..n] == tasks[..n];
        if tasks[n].status == NOTIFIED {
          ids := ids + [n];
        }
        n := n + 1;
      }
      assert tasks[..n] == tasks;
    }

    /** `ingest_pending_once` alone: what it makes of every task and of its rows, and how many it claimed. */
    method IngestPendingOnce(world: nat -> Option<Workbook>) returns (handled: nat)
      modifies this
      ensures |tasks| == |old(tasks)|
      ensures var ids := NotifiedIds(old(tasks));
              && RoundDone(old(tasks), old(children), tasks, children, world, ids)
              && handled == |Claimed(old(tasks), world, ids)|
    {
      hide Ingested, RoundDone, Claimed, Among;
      var snapshot := Snapshot();
      ghost var before, was := tasks, children;
      handled := 0;
      var n := 0;
      RoundStarts(before, was, world);
      assert snapshot[..0] == [];
      while n < |snapshot|
        invariant 0 <= n <= |snapshot|
        invariant |tasks| == |before| && Among(snapshot[..n], |before|)
        invariant handled == |Claimed(before, world, snapshot[..n])|
        invariant RoundDone(before, was, tasks, children, world, snapshot[..n])
      {
        var id := snapshot[n];
        assert snapshot[..n + 1] == snapshot[..n] + [id];
        RoundAdvances(before, was, tasks, children, world, snapshot[..n], id);
        var claimed := IngestOne(id, world(id));
        handled := handled + if claimed then 1 else 0;
        n := n + 1;
      }
      assert snapshot[..n] == snapshot;
    }
  }

  // ---- a round ------------------------------------------------------------------------------

  /** The file of `id` arrives and can be parsed. */
  predicate Lands(world: nat -> Option<Workbook>, id: nat) {
    world(id).Some? && HeadersOk(world(id).value) && Convert(world(id).value).Ok?
  }

  /** One of `ids` lands as a newer version of `j`. */
  ghost predicate Overtaken(before: seq<Task>, world: nat -> Option<Workbook>, ids: seq<nat>, j: nat)
    requires j < |before|
  {
    exists m :: m in ids && m < |before| && Lands(world, m) && OlderVersion(before[j], before[m])
  }

  /** A lower version of the same number of the same tenant. */
  predicate OlderVersion(t: Task, u: Task) {
    t.tenant == u.tenant && t.taskNo == u.taskNo && t.version < u.version
  }

  predicate Among(ids: seq<nat>, n: nat) {
    forall m :: m in ids ==> m < n
  }

  /** The tasks a round over `ids` claims: those that no earlier one has superseded by then. */
  ghost function Claimed(before: seq<Task>, world: nat -> Option<Workbook>, ids: seq<nat>): (claims: seq<nat>)
    requires Among(ids, |before|)
    ensures forall m :: m in claims ==> m in ids
  {
    if ids == [] then []
    else
      var earlier, id := ids[..|ids| - 1], ids[|ids| - 1];
      assert id in ids && forall m :: m in earlier ==> m in ids;
      Claimed(before, world, earlier) + if Overtaken(before, world, earlier, id) then [] else [id]
  }

  /** The status of `j` after a round over `ids`; it does not depend on their order. */
  ghost function StatusAfter(before: seq<Task>, world: nat -> Option<Workbook>, ids: seq<nat>, j: nat): Status
    requires j < |before|
  {
    if Overtaken(before, world, ids, j) then SUPERSEDED
    else if j !in ids then before[j].status
    else if Lands(world, j) then PARSED
    else FAILED
  }

  /** The rows of `j` are those of its file. */
  predicate HoldsFile(children: map<nat, Landing>, world: nat -> Option<Workbook>, j: nat) {
    && j in children && world(j).Some?
    && HeadersOk(world(j).value) && Convert(world(j).value) == Ok(children[j])
  }

  predicate SameRows(was: map<nat, Landing>, children: map<nat, Landing>, j: nat) {
    (j in children <==> j in was) && (j in was ==> children[j] == was[j])
  }

  /** What a lone round over `ids` makes of `j`: its status; that nothing else about it changes unless it
      was due; and its rows, which are those of its file if it was claimed and its file could be parsed. */
  ghost predicate RoundTask(before: seq<Task>, was: map<nat, Landing>, now: seq<Task>, children: map<nat, Landing>,
                            world: nat -> Option<Workbook>, ids: seq<nat>, j: nat)
    requires j < |before| == |now|
    requires Among(ids, |before|)
  {
    && SameKey(before[j], now[j])
    && now[j].status == StatusAfter(before, world, ids, j)
    && (j !in ids ==> now[j] == before[j].(status := now[j].status))
    && (j in ids && now[j].status == PARSED ==> j in Claimed(before, world, ids))
    && (if j in Claimed(before, world, ids) && Lands(world, j) then HoldsFile(children, world, j) else SameRows(was, children, j))
  }

  /** What a lone round over `ids` makes of the tables. */
  ghost predicate RoundDone(before: seq<Task>, was: map<nat, Landing>, now: seq<Task>, children: map<nat, Landing>,
                            world: nat -> Option<Workbook>, ids: seq<nat>)
    requires |before| == |now| && Among(ids, |before|)
  {
    forall j :: 0 <= j < |before| ==> RoundTask(before, was, now, children, world, ids, j)
  }

  lemma RoundStarts(before: seq<Task>, was: map<nat, Landing>, world: nat -> Option<Workbook>)
    ensures Among([], |before|) && RoundDone(before, was, before, was, world, [])
    ensures Claimed(before, world, []) == []
  {
  }

  /** A pass parses or fails its own task, and supersedes the older versions exactly if it parsed it. */
  lemma IngestedSettles(tasks: seq<Task>, children: map<nat, Landing>, id: nat, world: nat -> Option<Workbook>)
    requires id < |tasks|
    ensures var (tasks', children') := Ingested(tasks, children, id, world(id));
            && |tasks'| == |tasks| && SameKey(tasks[id], tasks'[id])
            && tasks'[id].status == (if Lands(world, id) then PARSED else FAILED)
            && (forall j :: 0 <= j < |tasks| && j != id ==>
                  tasks'[j] == if Lands(world, id) && tasks[j].tenant == tasks[id].tenant &&
                                  tasks[j].taskNo == tasks[id].taskNo && tasks[j].version < tasks[id].version
                               then tasks[j].(status := SUPERSEDED) else tasks[j])
            && (if Lands(world, id) then HoldsFile(children', world, id) else children' == children)
            && (forall j :: j != id ==> SameRows(children, children', j))
  {
    if Lands(world, id) {
      LandedShape(tasks[id := tasks[id].(status := DOWNLOADED)], id, |Convert(world(id).value).value.diffs|);
    }
    hide HeadersOk, Convert, Landed;
  }

  /** A task that is skipped adds nothing: whatever it would supersede, the one that overtook it did. */
  lemma OvertakenByOneMore(before: seq<Task>, world: nat -> Option<Workbook>, ids: seq<nat>, id: nat, j: nat)
    requires id < |before| && j < |before|
    ensures Overtaken(before, world, ids + [id], j) <==>
            Overtaken(before, world, ids, j) ||
            (!Overtaken(before, world, ids, id) && Lands(world, id) && OlderVersion(before[j], before[id]))
  {
    hide Lands;
    var more := ids + [id];
    if Overtaken(before, world, ids, j) {
      var m :| m in ids && m < |before| && Lands(world, m) && OlderVersion(before[j], before[m]);
      assert m in more;
    }
    if Lands(world, id) && OlderVersion(before[j], before[id]) {
      assert id in more;
      if Overtaken(before, world, ids, id) {
        var m :| m in ids && m < |before| && Lands(world, m) && OlderVersion(before[id], before[m]);
        assert OlderVersion(before[j], before[m]);
      }
    }
  }

  lemma ClaimsOneMore(before: seq<Task>, world: nat -> Option<Workbook>, ids: seq<nat>, id: nat)
    requires id < |before| && Among(ids, |before|)
    ensures Among(ids + [id], |before|)
    ensures Claimed(before, world, ids + [id]) ==
            Claimed(before, world, ids) + if Overtaken(before, world, ids, id) then [] else [id]
  {
    hide Overtaken;
    var more := ids + [id];
    assert more[..|more| - 1] == ids && more[|more| - 1] == id;
  }

  lemma OwnTaskAdvances(before: seq<Task>, was: map<nat, Landing>, tasks: seq<Task>, children: map<nat, Landing>,
                        tasks': seq<Task>, children': map<nat, Landing>, world: nat -> Option<Workbook>, ids: seq<nat>, id: nat)
    requires |tasks| == |before| && id < |before| && before[id].status == NOTIFIED && id !in ids && Among(ids, |before|)
    requires RoundTask(before, was, tasks, children, world, ids, id)
    requires (tasks', children') == if tasks[id].status == NOTIFIED then Ingested(tasks, children, id, world(id)) else (tasks, children)
    ensures |tasks'| == |before| && Among(ids + [id], |before|)
    ensures RoundTask(before, was, tasks', children', world, ids + [id], id)
  {
    IngestedSettles(tasks, children, id, world);
    OvertakenByOneMore(before, world, ids, id, id);
    ClaimsOneMore(before, world, ids, id);
    hide Lands, Ingested, HoldsFile, Overtaken, Claimed;
  }

  lemma OtherTaskAdvances(before: seq<Task>, was: map<nat, Landing>, tasks: seq<Task>, children: map<nat, Landing>,
                          tasks': seq<Task>, children': map<nat, Landing>, world: nat -> Option<Workbook>, ids: seq<nat>, id: nat,
                          j: nat)
    requires |tasks| == |before| && id < |before| && before[id].status == NOTIFIED && id !in ids && Among(ids, |before|)
    requires j < |before| && j != id
    requires RoundTask(before, was, tasks, children, world, ids, id) && RoundTask(before, was, tasks, children, world, ids, j)
    requires (tasks', children') == if tasks[id].status == NOTIFIED then Ingested(tasks, children, id, world(id)) else (tasks, children)
    ensures |tasks'| == |before| && Among(ids + [id], |before|)
    ensures RoundTask(before, was, tasks', children', world, ids + [id], j)
  {
    IngestedSettles(tasks, children, id, world);
    assert OlderVersion(tasks[j], tasks[id]) <==> OlderVersion(before[j], before[id]);
    assert tasks'[j] == if tasks[id].status == NOTIFIED && Lands(world, id) && OlderVersion(before[j], before[id])
                        then tasks[j].(status := SUPERSEDED) else tasks[j];
    hide Lands, Ingested, HeadersOk, Convert, Overtaken, Claimed, OlderVersion, HoldsFile;
    OvertakenByOneMore(before, world, ids, id, j);
    ClaimsOneMore(before, world, ids, id);
    assert SameRows(children, children', j);
  }

  /** One pass takes a round over `ids` to a round over one more, and claims its task exactly if that was
      not overtaken. */
  lemma RoundAdvances(before: seq<Task>, was: map<nat, Landing>, tasks: seq<Task>, children: map<nat, Landing>,
                      world: nat -> Option<Workbook>, ids: seq<nat>, id: nat)
    requires |tasks| == |before| && id < |before| && before[id].status == NOTIFIED && id !in ids
    requires Among(ids, |before|) && RoundDone(before, was, tasks, children, world, ids)
    ensures var claimed := tasks[id].status == NOTIFIED;
            var (tasks', children') := if claimed then Ingested(tasks, children, id, world(id)) else (tasks, children);
            && |tasks'| == |before| && Among(ids + [id], |before|)
            && |Claimed(before, world, ids + [id])| == |Claimed(before, world, ids)| + (if claimed then 1 else 0)
            && RoundDone(before, was, tasks', children', world, ids + [id])
  {
    hide Lands, Ingested, HoldsFile, Overtaken, Claimed, HeadersOk, Convert;
    assert RoundTask(before, was, tasks, children, world, ids, id);
    ClaimsOneMore(before, world, ids, id);
    var (tasks', children') :=
      if tasks[id].status == NOTIFIED then Ingested(tasks, children, id, world(id)) else (tasks, children);
    OwnTaskAdvances(before, was, tasks, children, tasks', children', world, ids, id);
    hide RoundTask;
    forall j | 0 <= j < |before| ensures RoundTask(before, was, tasks', children', world, ids + [id], j) {
      if j != id {
        assert RoundTask(before, was, tasks, children, world, ids, j);
        OtherTaskAdvances(before, was, tasks, children, tasks', children', world, ids, id, j);
      }
    }
  }

  /** A round none of whose landings is of the tenant and number of `j` leaves `j` as it was, with its rows,
      unless it was due itself. */
  lemma OthersKeepTheirTasks(before: seq<Task>, was: map<nat, Landing>, now: seq<Task>, children: map<nat, Landing>,
                             world: nat -> Option<Workbook>, ids: seq<nat>, j: nat)
    requires |before| == |now| && Among(ids, |before|) && RoundDone(before, was, now, children, world, ids)
    requires j < |before| && j !in ids
    requires forall m :: m in ids && Lands(world, m) ==> before[m].tenant != before[j].tenant || before[m].taskNo != before[j].taskNo
    ensures now[j] == before[j] && SameRows(was, children, j)
  {
    hide Lands, Claimed;
    assert RoundTask(before, was, now, children, world, ids, j);
  }
}
