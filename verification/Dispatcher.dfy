/** Any number of outbox dispatchers over one table (app/services/outbox.py): each claim, read,
    post and write-back is a separate step, and any dispatcher may stall, crash or come back late. */
module Dispatcher {
  import opened Prelude
  import opened Outbox

  /** One dispatcher between two of its transactions. */
  datatype Proc =
    | HasClaim(oid: nat, token: nat)
    | HasRead(oid: nat, token: nat, attempts: nat)
    | HasPosted(oid: nat, token: nat, attempts: nat, ok: bool, error: Option<string>, answer: PostOutcome)

  /** A history entry: the post for the claim `token` of row `oid` ended like this. */
  datatype Posted = Posted(oid: nat, token: nat, answer: PostOutcome)

  /** `nextToken` supplies fresh claim tokens. `hist` and `posts` are histories, the events of each row
      and the posts made, and so is the `answer` of a process. */
  datatype State = State(
    procs: map<nat, Proc>,
    nextToken: nat,
    hist: map<nat, seq<RowEvent>>,
    posts: set<Posted>)

  datatype Event =
    | Claim(pid: nat, oid: nat, now: int, clock: int)
    | Read(pid: nat)
    | Post(pid: nat, outcome: PostOutcome)
    | Finalize(pid: nat, clock: int)
    | ReclaimStale(now: int, timeout: int)
    | ReplayDead(oid: nat)
    | Crash(pid: nat)

  predicate PostOk(o: PostOutcome) {
    o.Answered? && o.code < 300
  }

  function PostError(o: PostOutcome, target: string): Option<string> {
    match o
    case NoUrl => Some("no url for target " + target)
    case Answered(code) => if code < 300 then None else Some("http " + IntText(code))
    case Raised(name) => Some(name)
  }

  function Record(d: State, oid: nat, e: RowEvent): State {
    d.(hist := d.hist[oid := SeqAt(d.hist, oid) + [e]])
  }

  function RecordReclaims(rows: seq<OutRow>, d: State, now: int, timeout: int): State {
    d.(hist := map k | 0 <= k < |rows| ::
         SeqAt(d.hist, k) + if Stale(rows[k], now, timeout) then [Reclaimed] else [])
  }

  predicate Enabled(rows: seq<OutRow>, d: State, e: Event) {
    match e
    case Claim(pid, oid, now, _) => pid !in d.procs && oid < |rows| && Due(rows[oid], now)
    case Read(pid) => pid in d.procs && d.procs[pid].HasClaim? && d.procs[pid].oid < |rows|
    case Post(pid, _) => pid in d.procs && d.procs[pid].HasRead? && d.procs[pid].oid < |rows|
    case Finalize(pid, _) => pid in d.procs && d.procs[pid].HasPosted? && d.procs[pid].oid < |rows|
    case ReclaimStale(_, _) => true
    case ReplayDead(oid) => oid < |rows| && rows[oid].status == DEAD
    case Crash(pid) => pid in d.procs
  }

  /** One step; an event that is not enabled changes nothing. */
  function Step(rows: seq<OutRow>, d: State, e: Event, p: Policy): (seq<OutRow>, State) {
    if !Enabled(rows, d, e) then (rows, d)
    else
      match e
      case Claim(pid, oid, _, clock) =>
        (rows[oid := ClaimRow(rows[oid], clock, d.nextToken)],
         Record(d, oid, Claimed(d.nextToken)).(
           procs := d.procs[pid := HasClaim(oid, d.nextToken)], nextToken := d.nextToken + 1))
      case Read(pid) =>
        var q := d.procs[pid];
        (rows, d.(procs := d.procs[pid := HasRead(q.oid, q.token, rows[q.oid].attempts)]))
      case Post(pid, o) =>
        var q := d.procs[pid];
        (rows, d.(procs := d.procs[pid := HasPosted(q.oid, q.token, q.attempts, PostOk(o),
                                                 PostError(o, rows[q.oid].target), o)],
                  posts := d.posts + {Posted(q.oid, q.token, o)}))
      case Finalize(pid, clock) =>
        var q := d.procs[pid];
        var d' := d.(procs := d.procs - {pid});
        if OwnedBy(rows[q.oid], q.token) then
          (rows[q.oid := WriteBack(rows[q.oid], q.attempts, q.ok, q.error, p, clock)],
           Record(d', q.oid, WroteBack(q.token, q.answer)))
        else (rows, d')
      case ReclaimStale(now, timeout) =>
        (ReclaimRows(rows, now, timeout), RecordReclaims(rows, d, now, timeout))
      case ReplayDead(oid) =>
        (rows[oid := ReplayRow(rows[oid])], Record(d, oid, Replayed))
      case Crash(pid) => (rows, d.(procs := d.procs - {pid}))
  }

  const IDLE := State(map[], 0, map[], {})

  // ---- invariant ----------------------------------------------------------------------------

  predicate ClaimAt(d: State, oid: nat, i: nat, t: nat) {
    i < |SeqAt(d.hist, oid)| && SeqAt(d.hist, oid)[i] == Claimed(t)
  }

  predicate WriteBackAt(d: State, oid: nat, i: nat, t: nat, a: PostOutcome) {
    i < |SeqAt(d.hist, oid)| && SeqAt(d.hist, oid)[i] == WroteBack(t, a)
  }

  /** A claim older than the timeout is taken back. */
  function TakenBack(r: OutRow, now: int, timeout: int): OutRow {
    if r.status == SENDING && r.lockedAt.Some? && r.lockedAt.value < now - timeout
    then r.(status := RETRY, lastError := Some("reclaimed_stale_sending"), token := None)
    else r
  }

  /** A row to send: new or to be tried again, and past its delay. */
  predicate ToSend(r: OutRow, now: int) {
    (r.status == PENDING || r.status == RETRY) && (r.nextRetryAt == None || r.nextRetryAt.value <= now)
  }

  /** What is noted about a post that failed. */
  function FailureText(a: PostOutcome, target: string): string {
    match a
    case NoUrl => "no url for target " + target
    case Answered(code) => "http " + IntText(code)
    case Raised(name) => name
  }

  /** Row `i` is what its history says. */
  predicate RowMatches(rows: seq<OutRow>, d: State, i: nat, max: nat)
    requires i < |rows|
  {
    && CellAfter(SeqAt(d.hist, i), max) == Some(CellOf(rows[i]))
    && (rows[i].status == SENDING ==> rows[i].lockedAt.Some?)
    && (rows[i].token.Some? ==> rows[i].token.value < d.nextToken)
  }

  predicate ProcMatches(rows: seq<OutRow>, d: State, q: Proc) {
    && q.oid < |rows|
    && q.token < d.nextToken
    && (!q.HasClaim? && rows[q.oid].token == Some(q.token) ==> rows[q.oid].attempts == q.attempts)
    && (q.HasPosted? ==> Posted(q.oid, q.token, q.answer) in d.posts)
    && (q.HasPosted? ==> (q.ok <==> q.answer.Answered? && q.answer.code < 300))
    && (q.HasPosted? && !q.ok ==> q.error == Some(FailureText(q.answer, rows[q.oid].target)))
  }

  ghost predicate TokensFresh(d: State) {
    && (forall k: nat, i: nat, t: nat :: ClaimAt(d, k, i, t) ==> t < d.nextToken)
    && (forall k: nat, i: nat, k2: nat, i2: nat, t: nat ::
          ClaimAt(d, k, i, t) && ClaimAt(d, k2, i2, t) ==> k == k2 && i == i2)
  }

  /** Every write-back follows a post for its claim that was answered as it says. */
  ghost predicate WriteBacksPosted(d: State) {
    forall k: nat, i: nat, t: nat, a: PostOutcome :: WriteBackAt(d, k, i, t, a) ==> Posted(k, t, a) in d.posts
  }

  /** A claim is posted at most once, and by the one process that made it. */
  ghost predicate PostsUnique(d: State) {
    && (forall x, y :: x in d.posts && y in d.posts && x.token == y.token ==> x == y)
    && (forall x :: x in d.posts ==> x.token < d.nextToken)
    && (forall p, q :: p in d.procs && q in d.procs && p != q ==> d.procs[p].token != d.procs[q].token)
    && (forall p, x :: p in d.procs && x in d.posts && !d.procs[p].HasPosted? ==> x.token != d.procs[p].token)
  }

  ghost predicate Inv(rows: seq<OutRow>, d: State, max: nat) {
    && (forall i :: 0 <= i < |rows| ==> RowMatches(rows, d, i, max))
    && (forall k :: k in d.hist ==> k < |rows|)
    && (forall pid :: pid in d.procs ==> ProcMatches(rows, d, d.procs[pid]))
    && TokensFresh(d)
    && WriteBacksPosted(d)
    && PostsUnique(d)
  }

  lemma ClaimKeepsRows(rows: seq<OutRow>, d: State, e: Event, p: Policy)
    requires Inv(rows, d, p.maxAttempts)
    requires e.Claim? && Enabled(rows, d, e)
    ensures var (rows', d') := Step(rows, d, e, p);
            && (forall i :: 0 <= i < |rows'| ==> RowMatches(rows', d', i, p.maxAttempts))
            && (forall pid :: pid in d'.procs ==> ProcMatches(rows', d', d'.procs[pid]))
  {
    var (rows', d') := Step(rows, d, e, p);
    assert RowMatches(rows, d, e.oid, p.maxAttempts);
    CellAfterAppend(SeqAt(d.hist, e.oid), Claimed(d.nextToken), p.maxAttempts);
    hide TokensFresh, WriteBacksPosted, PostsUnique, CellAfter;
    forall i | 0 <= i < |rows'| ensures RowMatches(rows', d', i, p.maxAttempts) {
      assert RowMatches(rows, d, i, p.maxAttempts);
    }
    forall pid | pid in d'.procs ensures ProcMatches(rows', d', d'.procs[pid]) {
      if pid != e.pid { assert ProcMatches(rows, d, d.procs[pid]); }
    }
  }

  lemma ClaimKeepsInv(rows: seq<OutRow>, d: State, e: Event, p: Policy)
    requires Inv(rows, d, p.maxAttempts)
    requires e.Claim? && Enabled(rows, d, e)
    ensures var (rows', d') := Step(rows, d, e, p); Inv(rows', d', p.maxAttempts)
  {
    var (rows', d') := Step(rows, d, e, p);
    var h := SeqAt(d.hist, e.oid);
    ClaimKeepsRows(rows, d, e, p);
    forall pid | pid in d.procs ensures d.procs[pid].token < d.nextToken {
      assert ProcMatches(rows, d, d.procs[pid]);
    }
    hide RowMatches, ProcMatches, Due;
    forall k: nat, i: nat, t: nat | ClaimAt(d', k, i, t)
      ensures ClaimAt(d, k, i, t) || (k == e.oid && i == |h| && t == d.nextToken)
    {
    }
    forall k: nat, i: nat, t: nat, a: PostOutcome | WriteBackAt(d', k, i, t, a) ensures WriteBackAt(d, k, i, t, a) {
    }
  }

  /** Appending an event that is neither a claim nor a write-back without its post keeps the histories good. */
  lemma RecordKeepsHistories(d: State, oid: nat, e: RowEvent)
    requires TokensFresh(d) && WriteBacksPosted(d)
    requires !e.Claimed?
    requires e.WroteBack? ==> Posted(oid, e.token, e.answer) in d.posts
    ensures TokensFresh(Record(d, oid, e)) && WriteBacksPosted(Record(d, oid, e))
  {
    var d' := Record(d, oid, e);
    forall k: nat, i: nat, t: nat | ClaimAt(d', k, i, t) ensures ClaimAt(d, k, i, t) {
    }
    forall k: nat, i: nat, t: nat, a: PostOutcome | WriteBackAt(d', k, i, t, a)
      ensures WriteBackAt(d, k, i, t, a) || (k == oid && e == WroteBack(t, a))
    {
    }
  }

  lemma FinalizeKeepsInv(rows: seq<OutRow>, d: State, e: Event, p: Policy)
    requires Inv(rows, d, p.maxAttempts)
    requires e.Finalize? && Enabled(rows, d, e)
    ensures var (rows', d') := Step(rows, d, e, p); Inv(rows', d', p.maxAttempts)
  {
    var (rows', d') := Step(rows, d, e, p);
    var q := d.procs[e.pid];
    assert ProcMatches(rows, d, q);
    assert RowMatches(rows, d, q.oid, p.maxAttempts);
    var d0 := d.(procs := d.procs - {e.pid});
    assert TokensFresh(d0) && WriteBacksPosted(d0) by { SameHistories(d, d0); }
    if OwnedBy(rows[q.oid], q.token) {
      CellAfterAppend(SeqAt(d.hist, q.oid), WroteBack(q.token, q.answer), p.maxAttempts);
      RecordKeepsHistories(d0, q.oid, WroteBack(q.token, q.answer));
    }
    forall i | 0 <= i < |rows'| ensures RowMatches(rows', d', i, p.maxAttempts) {
      assert RowMatches(rows, d, i, p.maxAttempts);
    }
    forall pid | pid in d'.procs ensures ProcMatches(rows', d', d'.procs[pid]) {
      assert ProcMatches(rows, d, d.procs[pid]);
    }
  }

  lemma SameHistories(d: State, d': State)
    requires TokensFresh(d) && WriteBacksPosted(d)
    requires d'.hist == d.hist && d'.nextToken == d.nextToken && d.posts <= d'.posts
    ensures TokensFresh(d') && WriteBacksPosted(d')
  {
    forall k: nat, i: nat, t: nat | ClaimAt(d', k, i, t) ensures ClaimAt(d, k, i, t) {
    }
    forall k: nat, i: nat, t: nat, a: PostOutcome | WriteBackAt(d', k, i, t, a) ensures WriteBackAt(d, k, i, t, a) {
    }
  }

  lemma ReplayKeepsInv(rows: seq<OutRow>, d: State, e: Event, p: Policy)
    requires Inv(rows, d, p.maxAttempts)
    requires e.ReplayDead? && Enabled(rows, d, e)
    ensures var (rows', d') := Step(rows, d, e, p); Inv(rows', d', p.maxAttempts)
  {
    var (rows', d') := Step(rows, d, e, p);
    assert RowMatches(rows, d, e.oid, p.maxAttempts);
    CellAfterAppend(SeqAt(d.hist, e.oid), Replayed, p.maxAttempts);
    SendingMeansJustClaimed(SeqAt(d.hist, e.oid), p.maxAttempts);
    RecordKeepsHistories(d, e.oid, Replayed);
    forall i | 0 <= i < |rows'| ensures RowMatches(rows', d', i, p.maxAttempts) {
      assert RowMatches(rows, d, i, p.maxAttempts);
    }
    forall pid | pid in d'.procs ensures ProcMatches(rows', d', d'.procs[pid]) {
      assert ProcMatches(rows, d, d.procs[pid]);
    }
  }

  lemma ReclaimKeepsRows(rows: seq<OutRow>, d: State, e: Event, p: Policy)
    requires Inv(rows, d, p.maxAttempts)
    requires e.ReclaimStale?
    ensures var (rows', d') := Step(rows, d, e, p);
            && (forall i :: 0 <= i < |rows'| ==> RowMatches(rows', d', i, p.maxAttempts))
            && (forall pid :: pid in d'.procs ==> ProcMatches(rows', d', d'.procs[pid]))
  {
    var (rows', d') := Step(rows, d, e, p);
    hide TokensFresh, WriteBacksPosted, PostsUnique;
    forall i | 0 <= i < |rows'| ensures RowMatches(rows', d', i, p.maxAttempts) {
      assert RowMatches(rows, d, i, p.maxAttempts);
      CellAfterAppend(SeqAt(d.hist, i), Reclaimed, p.maxAttempts);
      assert SeqAt(d.hist, i) + [] == SeqAt(d.hist, i);
    }
    forall pid | pid in d'.procs ensures ProcMatches(rows', d', d'.procs[pid]) {
      assert ProcMatches(rows, d, d.procs[pid]);
    }
  }

  lemma ReclaimKeepsInv(rows: seq<OutRow>, d: State, e: Event, p: Policy)
    requires Inv(rows, d, p.maxAttempts)
    requires e.ReclaimStale?
    ensures var (rows', d') := Step(rows, d, e, p); Inv(rows', d', p.maxAttempts)
  {
    var (rows', d') := Step(rows, d, e, p);
    ReclaimKeepsRows(rows, d, e, p);
    hide RowMatches, ProcMatches, Stale;
    forall k: nat, i: nat, t: nat | ClaimAt(d', k, i, t) ensures ClaimAt(d, k, i, t) {
    }
    forall k: nat, i: nat, t: nat, a: PostOutcome | WriteBackAt(d', k, i, t, a) ensures WriteBackAt(d, k, i, t, a) {
    }
  }

  /** Every step of every dispatcher, in any interleaving, keeps the invariant. */
  lemma StepKeepsInv(rows: seq<OutRow>, d: State, e: Event, p: Policy)
    requires Inv(rows, d, p.maxAttempts)
    ensures var (rows', d') := Step(rows, d, e, p); Inv(rows', d', p.maxAttempts)
  {
    if Enabled(rows, d, e) {
      var (rows', d') := Step(rows, d, e, p);
      match e {
        case Claim(_, _, _, _) => ClaimKeepsInv(rows, d, e, p);
        case Finalize(_, _) => FinalizeKeepsInv(rows, d, e, p);
        case ReclaimStale(_, _) => ReclaimKeepsInv(rows, d, e, p);
        case ReplayDead(_) => ReplayKeepsInv(rows, d, e, p);
        case _ =>
          SameHistories(d, d');
          forall i | 0 <= i < |rows'| ensures RowMatches(rows', d', i, p.maxAttempts) {
            assert RowMatches(rows, d, i, p.maxAttempts);
          }
      }
    }
  }

  /** Other writers only append fresh rows. */
  lemma AppendKeepsInv(rows: seq<OutRow>, d: State, r: OutRow, max: nat)
    requires Inv(rows, d, max)
    requires CellOf(r) == Cell(PENDING, 0, None)
    ensures Inv(rows + [r], d, max)
  {
    var rows' := rows + [r];
    forall i | 0 <= i < |rows'| ensures RowMatches(rows', d, i, max) {
      if i < |rows| {
        assert RowMatches(rows, d, i, max);
      }
    }
    forall pid | pid in d.procs ensures ProcMatches(rows', d, d.procs[pid]) {
      assert ProcMatches(rows, d, d.procs[pid]);
    }
  }

  // ---- what the invariant gives -------------------------------------------------------------

  /** What identifies a row and what it carries. */
  predicate SameContent(r: OutRow, r': OutRow) {
    r.tenant == r'.tenant && r.target == r'.target && r.payload == r'.payload && r.dedup == r'.dedup
  }

  /** Dispatchers neither add nor drop rows, nor touch what a row carries. */
  lemma StepKeepsContent(rows: seq<OutRow>, d: State, e: Event, p: Policy)
    ensures var (rows', d') := Step(rows, d, e, p);
            && |rows'| == |rows|
            && (forall i :: 0 <= i < |rows| ==> SameContent(rows[i], rows'[i]))
  {
  }

  /** The other transactions: a claim takes exactly a row that is to be sent, by a process that has none,
      under a token never used before; a reclaim takes back exactly the stale claims; a replay makes a DEAD
      row new again; and reading, posting and crashing touch no row. */
  lemma TransactionsRead(rows: seq<OutRow>, d: State, e: Event, p: Policy)
    requires Inv(rows, d, p.maxAttempts) && !e.Finalize?
    ensures var (rows', d') := Step(rows, d, e, p);
            && |rows'| == |rows|
            && forall i :: 0 <= i < |rows| ==>
                 rows'[i] ==
                 match e
                 case Claim(pid, oid, now, clock) =>
                   if pid !in d.procs && i == oid && ToSend(rows[i], now)
                   then rows[i].(status := SENDING, lockedAt := Some(clock), token := Some(d.nextToken)) else rows[i]
                 case ReclaimStale(now, timeout) => TakenBack(rows[i], now, timeout)
                 case ReplayDead(oid) =>
                   if i == oid && rows[i].status == DEAD
                   then rows[i].(status := PENDING, attempts := 0, nextRetryAt := None) else rows[i]
                 case _ => rows[i]
    ensures forall k: nat, i: nat :: !ClaimAt(d, k, i, d.nextToken)
  {
  }

  /** A claimed row after its post was answered: below 300 it is SENT; otherwise it is DEAD when its attempts
      are used up, and else to be sent again after a delay that doubles with each attempt. */
  function WrittenBack(r: OutRow, a: PostOutcome, p: Policy, clock: int): OutRow {
    var done := r.(attempts := r.attempts + 1, lockedAt := None, token := None);
    if a.Answered? && a.code < 300 then done.(status := SENT)
    else
      var failed := done.(lastError := Some(FailureText(a, r.target)));
      if r.attempts + 1 >= p.maxAttempts then failed.(status := DEAD)
      else failed.(status := RETRY, nextRetryAt := Some(clock + p.backoffBase * Pow2(r.attempts)))
  }

  /** A write-back that hits the row does this and adds exactly one attempt to what the row holds at that moment,
      although the count was read in an earlier transaction; a late one changes no row at all. */
  lemma WriteBackIsNoLostUpdate(rows: seq<OutRow>, d: State, pid: nat, clock: int, p: Policy)
    requires Inv(rows, d, p.maxAttempts)
    requires Enabled(rows, d, Finalize(pid, clock))
    ensures var q := d.procs[pid];
            var (rows', d') := Step(rows, d, Finalize(pid, clock), p);
            if rows[q.oid].status == SENDING && rows[q.oid].token == Some(q.token) then
              && rows'[q.oid] == WrittenBack(rows[q.oid], q.answer, p, clock)
              && rows'[q.oid].attempts == rows[q.oid].attempts + 1
              && (forall i :: 0 <= i < |rows| && i != q.oid ==> rows'[i] == rows[i])
            else rows' == rows
  {
    var q := d.procs[pid];
    assert ProcMatches(rows, d, q);
    assert RowMatches(rows, d, q.oid, p.maxAttempts);
  }

  /** The one post for the claim `t` of row `oid` was answered below 300. */
  ghost predicate AnsweredBelow300(d: State, oid: nat, t: nat) {
    exists c: int :: c < 300 && Posted(oid, t, Answered(c)) in d.posts && forall x :: x in d.posts && x.token == t ==> x == Posted(oid, t, Answered(c))
  }

  /** In every state: each row's attempts are within budget and count its write-backs, its claims
      are all accounted for, a sent row was answered below 300 to its last claim, and any other answer
      left it to be sent again or DEAD. */
  lemma RowGuarantees(rows: seq<OutRow>, d: State, i: nat, p: Policy)
    requires Inv(rows, d, p.maxAttempts)
    requires p.maxAttempts >= 1
    requires i < |rows|
    ensures var h := SeqAt(d.hist, i);
            && WithinBudget(CellOf(rows[i]), p.maxAttempts)
            && rows[i].attempts == WriteBacks(SinceReplay(h))
            && Claims(h) == WriteBacks(h) + Reclaims(h) + (if rows[i].status == SENDING then 1 else 0)
            && Claims(SinceReplay(h)) <= p.maxAttempts + Reclaims(SinceReplay(h))
            && (rows[i].status == SENT ==>
                  h != [] && h[|h| - 1].WroteBack? && AnsweredBelow300(d, i, h[|h| - 1].token))
            && (forall j :: 0 <= j < |h| && h[j].WroteBack? && !AnsweredBelow300(d, i, h[j].token) ==>
                  CellAfter(h[..j + 1], p.maxAttempts).Some? && CellAfter(h[..j + 1], p.maxAttempts).value.status in {RETRY, DEAD})
            && (rows[i].status == SENDING <==> rows[i].token.Some?)
  {
    var h := SeqAt(d.hist, i);
    assert RowMatches(rows, d, i, p.maxAttempts);
    AttemptsBudget(h, p.maxAttempts);
    AttemptsCountWriteBacks(h, p.maxAttempts);
    ClaimAccounting(h, p.maxAttempts);
    ClaimBudget(h, p.maxAttempts);
    SendingMeansJustClaimed(h, p.maxAttempts);
    SentEndsWithSuccess(h, p.maxAttempts);
    if rows[i].status == SENT {
      assert WriteBackAt(d, i, |h| - 1, h[|h| - 1].token, h[|h| - 1].answer);
    }
    forall j | 0 <= j < |h| && h[j].WroteBack? && !AnsweredBelow300(d, i, h[j].token)
      ensures CellAfter(h[..j + 1], p.maxAttempts).Some? && CellAfter(h[..j + 1], p.maxAttempts).value.status in {RETRY, DEAD}
    {
      assert WriteBackAt(d, i, j, h[j].token, h[j].answer);
      OtherAnswersRetryOrDie(h, j, p.maxAttempts);
    }
  }

  /** Each write-back carries the token of the claim just before it, and no other claim of any row
      ever used that token: the row was not reclaimed since the writer's own claim. */
  lemma WriteBackIsByTheClaimant(rows: seq<OutRow>, d: State, oid: nat, i: nat, p: Policy)
    requires Inv(rows, d, p.maxAttempts)
    requires oid < |rows|
    requires i < |SeqAt(d.hist, oid)| && SeqAt(d.hist, oid)[i].WroteBack?
    ensures var t := SeqAt(d.hist, oid)[i].token;
            && i > 0 && ClaimAt(d, oid, i - 1, t)
            && forall k: nat, j: nat :: ClaimAt(d, k, j, t) ==> k == oid && j == i - 1
  {
    assert RowMatches(rows, d, oid, p.maxAttempts);
    WriteBackFollowsItsClaim(SeqAt(d.hist, oid), i, p.maxAttempts);
    assert ClaimAt(d, oid, i - 1, SeqAt(d.hist, oid)[i].token);
  }

  /** A sent row stays sent, and a dead row stays dead unless it is replayed. */
  lemma SentIsNeverLeft(rows: seq<OutRow>, d: State, e: Event, p: Policy, i: nat)
    requires Inv(rows, d, p.maxAttempts)
    requires i < |rows|
    ensures var (rows', d') := Step(rows, d, e, p);
            && (rows[i].status == SENT ==> rows'[i] == rows[i])
            && (rows[i].status == DEAD && e != ReplayDead(i) ==> rows'[i] == rows[i])
  {
    assert RowMatches(rows, d, i, p.maxAttempts);
  }
}
