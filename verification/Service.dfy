/** The request handlers and workers as the service runs them, one after another, on the tables of
    Store. Each is proved to be a run of its own process in Protocol, so what Guarantees proves of
    every interleaving of such runs holds of the code. */
module Service {
  import opened Prelude
  import opened States
  import opened WedapReply
  import opened MoneyWrite
  import opened AuditChain
  import opened Ledger
  import opened Protocol
  import opened Store

  class Inbox {
    var rows: map<InboxKey, InboxRow>

    constructor ()
      ensures rows == map[]
    {
      rows := map[];
    }

    /** `_set_inbox_status` */
    method SetStatus(ik: InboxKey, processed: bool, error: Option<string>)
      requires ik in rows
      modifies this
      ensures rows == old(rows)[ik := InboxRow(old(rows)[ik].body, processed, error)]
    {
      var row := rows[ik];
      row := row.(processed := processed);
      row := row.(error := error);
      rows := rows[ik := row];
    }
  }

  // ---- runs ---------------------------------------------------------------------------------

  lemma RunOne(g: Config, w: World, e: Event)
    ensures Run(g, w, [e]) == Step(g, w, e)
  {
    assert [e][..0] == [];
  }

  lemma RunSnoc(g: Config, w: World, evs: seq<Event>, e: Event)
    ensures Run(g, w, evs + [e]) == Step(g, Run(g, w, evs), e)
  {
    assert (evs + [e])[..|evs|] == evs;
  }

  lemma {:induction false} RunConcat(g: Config, w: World, a: seq<Event>, b: seq<Event>)
    ensures Run(g, w, a + b) == Run(g, Run(g, w, a), b)
  {
    if b == [] {
      assert a + b == a;
    } else {
      var n := |b| - 1;
      assert a + b == a + b[..n] + [b[n]];
      RunSnoc(g, w, a + b[..n], b[n]);
      RunConcat(g, w, a, b[..n]);
    }
  }

  // ---- submits and reversals ----------------------------------------------------------------

  datatype Outcome =
    | Replied(response: Response)
    | Refused(early: Early)
    | BadKey
    | Raised

  /** A request that goes no further than its first transaction. */
  function EarlyOutcome(early: Early): Outcome {
    match early
    case Replay(r) => Replied(r)
    case InFlight(r) => Replied(r)
    case _ => Refused(early)
  }

  /** The process is gone and left no trace but in the tables and the history of calls. */
  ghost predicate Finished(w: World, w': World, d: Tables, called: seq<OrderKey>) {
    && w'.db == d
    && w'.calls == w.calls + called
    && w'.inbox == w.inbox && w'.procs == w.procs && w'.disp == w.disp
  }

  lemma StartShape(g: Config, w: World, pid: nat, req: Request, kind: Kind)
    requires pid !in w.procs && ValidBiz(req.biz)
    requires Register(g.cr, w.db, req).1.Fresh?
    ensures Run(g, w, [Start(pid, req, kind)]) == Put(w.(db := Register(g.cr, w.db, req).0), pid, Calling(req, kind))
  {
    hide Register;
    RunOne(g, w, Start(pid, req, kind));
  }

  lemma DialAndAnswerShape(g: Config, w: World, pid: nat, req: Request, kind: Kind, call: CallResult)
    requires pid in w.procs && w.procs[pid] == Calling(req, kind)
    ensures Run(g, w, [Dial(pid), Answer(pid, call)]) ==
            AnswerStep(Put(w.(calls := w.calls + [req.Key()]), pid, Dialing(req, kind)), pid, req, kind, call)
  {
    hide AnswerStep;
    var evs := [Dial(pid)];
    assert [Dial(pid), Answer(pid, call)] == evs + [Answer(pid, call)];
    RunSnoc(g, w, evs, Answer(pid, call));
    RunOne(g, w, Dial(pid));
  }

  lemma CommitShape(g: Config, w: World, pid: nat, req: Request, kind: Kind, call: CallResult, now: int)
    requires pid in w.procs && w.procs[pid] == HasReply(req, kind, call)
    requires Classify(req, kind, call).Some?
    ensures Run(g, w, [Commit(pid, now)]) == CommitStep(g, w, pid, req, kind, Classify(req, kind, call).value, now)
  {
    hide CommitStep, Classify;
    RunOne(g, w, Commit(pid, now));
  }

  function SecondTransaction(cr: Crypto, d: Tables, req: Request, kind: Kind, v: Verdict, now: int)
    : (Tables, Option<Response>)
  {
    match kind
    case Plain => CommitSubmit(cr, d, req, v, now)
    case ReversalOf(ori) => CommitReversal(cr, d, req, ori, v, now)
  }

  /** A second transaction on an order registered with its idempotency row answers it and ends. */
  lemma CommitEnds(g: Config, w: World, pid: nat, req: Request, kind: Kind, v: Verdict, now: int)
    requires req.Key() in w.db.orders && req.Idem() in w.db.idem
    ensures var (d', r) := SecondTransaction(g.cr, w.db, req, kind, v, now);
            && r.Some? && Recorded(d', req.Idem(), r.value)
            && Finished(w.(procs := w.procs - {pid}), CommitStep(g, w, pid, req, kind, v, now), d', [])
  {
    hide Cas, AdvanceReversal, FinalResponse;
  }

  function SubmitEvents(pid: nat, req: Request, kind: Kind, call: CallResult, now: int): seq<Event> {
    [Start(pid, req, kind)] + [Dial(pid), Answer(pid, call)] +
    if Classify(req, kind, call).Some? then [Commit(pid, now)] else []
  }

  /** The tables and the answer a fresh request leaves behind. */
  function SubmitResult(cr: Crypto, d: Tables, req: Request, kind: Kind, call: CallResult, now: int)
    : (Tables, Option<Response>)
  {
    var d1 := Register(cr, d, req).0;
    match Classify(req, kind, call)
    case None => (d1, None)
    case Some(v) => SecondTransaction(cr, d1, req, kind, v, now)
  }

  /** The world when the answer to a fresh request is in. */
  function Heeded(g: Config, w: World, pid: nat, req: Request, kind: Kind, call: CallResult): World {
    var w1 := w.(db := Register(g.cr, w.db, req).0, calls := w.calls + [req.Key()]);
    AnswerStep(Put(w1, pid, Dialing(req, kind)), pid, req, kind, call)
  }

  lemma PutTwice(w: World, pid: nat, p: Proc, q: Proc, calls: seq<OrderKey>)
    ensures Put(Put(w, pid, p).(calls := calls), pid, q) == Put(w.(calls := calls), pid, q)
  {
    assert w.procs[pid := p][pid := q] == w.procs[pid := q];
  }

  lemma FirstHalfIsRun(g: Config, w: World, pid: nat, req: Request, kind: Kind, call: CallResult)
    requires pid !in w.procs && ValidBiz(req.biz)
    requires Register(g.cr, w.db, req).1.Fresh?
    ensures Run(g, w, [Start(pid, req, kind)] + [Dial(pid), Answer(pid, call)]) == Heeded(g, w, pid, req, kind, call)
  {
    StartShape(g, w, pid, req, kind);
    var w0 := w.(db := Register(g.cr, w.db, req).0);
    var w1 := Put(w0, pid, Calling(req, kind));
    hide Register, ValidBiz, AnswerStep, Run, Step;
    DialAndAnswerShape(g, w1, pid, req, kind, call);
    RunConcat(g, w, [Start(pid, req, kind)], [Dial(pid), Answer(pid, call)]);
    PutTwice(w0, pid, Calling(req, kind), Dialing(req, kind), w.calls + [req.Key()]);
    hide Put;
  }

  lemma HeededShape(g: Config, w: World, pid: nat, req: Request, kind: Kind, call: CallResult)
    requires pid !in w.procs
    ensures var w2 := Heeded(g, w, pid, req, kind, call);
            && Finished(w, w2.(procs := w2.procs - {pid}), Register(g.cr, w.db, req).0, [req.Key()])
            && (if Classify(req, kind, call).Some? then pid in w2.procs && w2.procs[pid] == HasReply(req, kind, call)
                else w2.procs == w.procs)
  {
    hide Register, Classify;
  }

  /** A fresh request is a run of one process that calls wedap once and ends. */
  lemma SubmitIsRun(g: Config, w: World, pid: nat, req: Request, kind: Kind, call: CallResult, now: int)
    requires pid !in w.procs && ValidBiz(req.biz)
    requires Register(g.cr, w.db, req).1.Fresh?
    ensures var (d', r) := SubmitResult(g.cr, w.db, req, kind, call, now);
            && Finished(w, Run(g, w, SubmitEvents(pid, req, kind, call, now)), d', [req.Key()])
            && (r.Some? <==> Classify(req, kind, call).Some?)
            && (r.Some? ==> Recorded(d', req.Idem(), r.value))
  {
    var evs := [Start(pid, req, kind)] + [Dial(pid), Answer(pid, call)];
    var w2 := Run(g, w, evs);
    FirstHalfIsRun(g, w, pid, req, kind, call);
    HeededShape(g, w, pid, req, kind, call);
    RegisterEffect(g.cr, w.db, req);
    hide Register, ValidBiz, Classify, CommitStep, SecondTransaction, Heeded;
    if Classify(req, kind, call).Some? {
      CommitShape(g, w2, pid, req, kind, call, now);
      RunConcat(g, w, evs, [Commit(pid, now)]);
      hide Run;
      CommitEnds(g, w2, pid, req, kind, Classify(req, kind, call).value, now);
    } else {
      assert evs + [] == evs;
    }
  }

  /** `submit_order` and `submit_reversal`, given what their call to wedap will bring: a request that
      is not fresh calls nobody and writes nothing, a fresh one calls exactly once, and what it
      replies is what its retries will be given. */
  method Submit(db: Database, req: Request, kind: Kind, call: CallResult, now: int,
                ghost g: Config, ghost w: World, ghost pid: nat)
    returns (out: Outcome)
    requires db.Valid() && db.cr == g.cr
    requires w.db == db.tables && pid !in w.procs
    modifies db
    ensures db.Valid()
    ensures var early := Register(g.cr, w.db, req).1;
            if !ValidBiz(req.biz) || !early.Fresh? then
              && db.tables == w.db
              && (if !ValidBiz(req.biz) then out == BadKey
                  else match early
                       case Replay(r) => out == Replied(r)
                       case InFlight(r) => out == Replied(r)
                       case _ => out == Refused(early))
            else
              && Finished(w, Run(g, w, SubmitEvents(pid, req, kind, call, now)), db.tables, [req.Key()])
              && (if Classify(req, kind, call).None? then out == Raised
                  else out.Replied? && Recorded(db.tables, req.Idem(), out.response))
  {
    if !ValidBiz(req.biz) {
      return BadKey;
    }
    RegisterEffect(g.cr, w.db, req);
    var early := db.RegisterAndAcceptOrder(req);
    hide Register, ValidBiz, Classify, CommitSubmit, CommitReversal, Run, SubmitEvents;
    if !early.Fresh? {
      return EarlyOutcome(early);
    }
    SubmitIsRun(g, w, pid, req, kind, call, now);
    var verdict := Classify(req, kind, call);
    if verdict.None? {
      return Raised;
    }
    var response;
    match kind {
      case Plain => response := db.CommitSubmit(req, verdict.value, now);
      case ReversalOf(ori) => response := db.CommitReversal(req, ori, verdict.value, now);
    }
    out := Replied(response.value);
  }

  // ---- status queries -----------------------------------------------------------------------

  datatype QueryEnd = QueryConverged | NotConverged | QueryRaised

  /** What a status query with this answer does when nobody comes between its steps. */
  function QueryResult(cr: Crypto, d: Tables, k: OrderKey, why: Why, call: CallResult, now: int): (Tables, QueryEnd) {
    if k !in d.orders || !HasParams(d.orders[k]) then (d, NotConverged)
    else
      match call
      case OtherException => (d, QueryRaised)
      case Returned(data) =>
        var terminal := MapTxnStatus(data.txnStatus.Rendered());
        if !SameIdentity(data, k, d.orders[k].transType.value) || terminal.None? then (d, NotConverged)
        else
          var (d', out) := Ledger.Settle(cr, d, k, terminal.value, QueryFinalizer(k, why, now));
          (d', if out.Upgraded? || out.Converged? then QueryConverged else NotConverged)
      case _ => (d, NotConverged)
  }

  predicate HasParams(o: Order) {
    && o.transType.Some? && o.transType.value != ""
    && o.oriReqDate.Some? && o.oriReqDate.value != ""
  }

  /** `resolve_terminal_via_status_query`, given what its query will bring */
  method ResolveTerminalViaStatusQuery(db: Database, k: OrderKey, why: Why, call: CallResult, now: int)
    returns (end: QueryEnd)
    requires db.Valid()
    modifies db
    ensures db.Valid()
    ensures (db.tables, end) == QueryResult(db.cr, old(db.tables), k, why, call, now)
  {
    if k !in db.orders {
      return NotConverged;
    }
    var order := db.orders[k];
    if !HasParams(order) {
      return NotConverged;
    }
    hide Ledger.Settle, MapTxnStatus, SameIdentity;
    match call {
      case OtherException => end := QueryRaised;
      case Returned(data) =>
        if !SameIdentity(data, k, order.transType.value) {
          return NotConverged;
        }
        var terminal := MapTxnStatus(data.txnStatus.Rendered());
        if terminal.None? {
          return NotConverged;
        }
        var out := db.Settle(k, terminal.value, QueryFinalizer(k, why, now));
        end := if out.Upgraded? || out.Converged? then QueryConverged else NotConverged;
      case _ => end := NotConverged;
    }
  }

  function QueryEvents(pid: nat, call: CallResult, now: int): seq<Event> {
    [ReadParams(pid), Reply(pid, call), SettleQuery(pid, now)]
  }

  /** Where a query leaves its process. */
  function AfterQuery(w: World, pid: nat, why: Why, end: QueryEnd): World {
    if end.QueryRaised? then FinishRaised(w, pid, why) else Finish(w, pid, why, end.QueryConverged?)
  }

  ghost predicate SameBut(w: World, w': World, d: Tables, procs: map<nat, Proc>) {
    && w'.db == d && w'.procs == procs
    && w'.inbox == w.inbox && w'.calls == w.calls && w'.disp == w.disp
  }

  lemma RunThree(g: Config, w: World, a: Event, b: Event, c: Event)
    ensures Run(g, w, [a, b, c]) == Step(g, Step(g, Step(g, w, a), b), c)
  {
    assert [a, b, c] == [a] + [b] + [c];
    RunOne(g, w, a);
    RunSnoc(g, w, [a], b);
    RunSnoc(g, w, [a] + [b], c);
  }

  /** A process that has left the query ignores the query's remaining events. */
  lemma IdleStep(g: Config, w: World, e: Event)
    requires (e.ReadParams? || e.Reply? || e.SettleQuery? || e.Recheck?)
    requires e.pid in w.procs ==>
               !w.procs[e.pid].Querying? && !w.procs[e.pid].Asking? && !w.procs[e.pid].Answered? &&
               (e.Recheck? ==> !w.procs[e.pid].Rechecking?)
    ensures Step(g, w, e) == w
  {
  }

  lemma ReadParamsShape(g: Config, w: World, pid: nat, k: OrderKey, why: Why)
    requires pid in w.procs && w.procs[pid] == Querying(k, why)
    ensures var w1 := Step(g, w, ReadParams(pid));
            if k in w.db.orders && HasParams(w.db.orders[k])
            then w1 == Put(w, pid, Asking(k, w.db.orders[k].transType.value, why))
            else w1 == Finish(w, pid, why, false)
  {
    hide Finish;
  }

  lemma ReplyShape(g: Config, w: World, pid: nat, k: OrderKey, transType: string, why: Why, call: CallResult)
    requires pid in w.procs && w.procs[pid] == Asking(k, transType, why)
    ensures Step(g, w, Reply(pid, call)) == ReplyStep(w, pid, k, transType, why, call)
  {
    hide ReplyStep;
  }

  lemma SettleShape(g: Config, w: World, pid: nat, k: OrderKey, terminal: OrderStatus, why: Why, now: int)
    requires pid in w.procs && w.procs[pid] == Answered(k, terminal, why)
    ensures Step(g, w, SettleQuery(pid, now)) == SettleStep(g, w, pid, k, terminal, why, now)
  {
    hide SettleStep;
  }

  /** A query with nobody in between is a run of its own process. */
  lemma QueryIsRun(g: Config, w: World, pid: nat, k: OrderKey, why: Why, call: CallResult, now: int)
    requires pid in w.procs && w.procs[pid] == Querying(k, why)
    ensures var (d', end) := QueryResult(g.cr, w.db, k, why, call, now);
            SameBut(w, Run(g, w, QueryEvents(pid, call, now)), d', AfterQuery(w, pid, why, end).procs)
  {
    var a, b, c := ReadParams(pid), Reply(pid, call), SettleQuery(pid, now);
    RunThree(g, w, a, b, c);
    ReadParamsShape(g, w, pid, k, why);
    hide Run, Step, Ledger.Settle, MapTxnStatus, SameIdentity;
    var w1 := Step(g, w, a);
    if k in w.db.orders && HasParams(w.db.orders[k]) {
      var transType := w.db.orders[k].transType.value;
      ReplyShape(g, w1, pid, k, transType, why, call);
      AskedIsRun(g, w1, pid, k, transType, why, call, now);
      hide QueryResult;
      PutThenAfter(w, pid, Asking(k, transType, why), why, QueryResult(g.cr, w.db, k, why, call, now).1);
    } else {
      IdleStep(g, w1, b);
      IdleStep(g, w1, c);
    }
  }

  lemma PutThenAfter(w: World, pid: nat, q: Proc, why: Why, end: QueryEnd)
    ensures AfterQuery(Put(w, pid, q), pid, why, end).procs == AfterQuery(w, pid, why, end).procs
  {
  }

  /** The part of a query after its parameters were read. */
  lemma AskedIsRun(g: Config, w: World, pid: nat, k: OrderKey, transType: string, why: Why, call: CallResult, now: int)
    requires pid in w.procs && w.procs[pid] == Asking(k, transType, why)
    requires k in w.db.orders && HasParams(w.db.orders[k]) && w.db.orders[k].transType == Some(transType)
    ensures var (d', end) := QueryResult(g.cr, w.db, k, why, call, now);
            var w' := Step(g, Step(g, w, Reply(pid, call)), SettleQuery(pid, now));
            SameBut(w, w', d', AfterQuery(w, pid, why, end).procs)
  {
    ReplyShape(g, w, pid, k, transType, why, call);
    hide Step, Ledger.Settle, MapTxnStatus, SameIdentity;
    var w2 := Step(g, w, Reply(pid, call));
    if call.Returned? && SameIdentity(call.data, k, transType) && MapTxnStatus(call.data.txnStatus.Rendered()).Some? {
      var terminal := MapTxnStatus(call.data.txnStatus.Rendered()).value;
      SettleShape(g, w2, pid, k, terminal, why, now);
    } else {
      IdleStep(g, w2, SettleQuery(pid, now));
    }
  }

  // ---- callbacks ----------------------------------------------------------------------------

  /** What a callback does to the tables when nobody comes between, and whether it is resolved. */
  function ResolveResult(cr: Crypto, d: Tables, ik: InboxKey, body: CallbackBody, first: bool, call: CallResult,
                         trace: string, now: int): (Tables, bool)
  {
    var k := CallbackOrder(ik, body);
    match CallbackTerminal(body)
    case Some(terminal) =>
      var (d', out) := Ledger.Settle(cr, d, k, terminal, Finalizer(CALLBACK, "gateway", trace, now));
      (d', !out.NoOrder? && !out.Illegal?)
    case None =>
      if k !in d.orders then (d, false)
      else if LooksFinal(d, k) then
        if d.orders[k].status == SUCCEEDED
        then (QueryResult(cr, d, k, ForCallback(ik, first, true), call, now).0, true)
        else (d, true)
      else
        var (d', end) := QueryResult(cr, d, k, ForCallback(ik, first, false), call, now);
        (d', end.QueryConverged? || (end.NotConverged? && LooksFinal(d', k)))
  }

  /** `resolve_callback_terminal` */
  method ResolveCallbackTerminal(db: Database, ik: InboxKey, body: CallbackBody, first: bool, call: CallResult,
                                 trace: string, now: int) returns (resolved: bool)
    requires db.Valid()
    modifies db
    ensures db.Valid()
    ensures (db.tables, resolved) == ResolveResult(db.cr, old(db.tables), ik, body, first, call, trace, now)
  {
    hide Ledger.Settle, QueryResult;
    var k := CallbackOrder(ik, body);
    var terminal := CallbackTerminal(body);
    if terminal.Some? {
      var out := db.Settle(k, terminal.value, Finalizer(CALLBACK, "gateway", trace, now));
      return !out.NoOrder? && !out.Illegal?;
    }
    if k !in db.orders {
      return false;
    }
    var order := db.orders[k];
    if order.finalizedAt.Some? || IsTerminal(order.status) {
      if order.status == SUCCEEDED {
        var _ := ResolveTerminalViaStatusQuery(db, k, ForCallback(ik, first, true), call, now);
      }
      return true;
    }
    var end := ResolveTerminalViaStatusQuery(db, k, ForCallback(ik, first, false), call, now);
    if end.QueryConverged? {
      return true;
    }
    if end.QueryRaised? {
      return false;
    }
    resolved := k in db.orders && (db.orders[k].finalizedAt.Some? || IsTerminal(db.orders[k].status));
  }

  function ResolveEvents(pid: nat, call: CallResult, trace: string, now: int): seq<Event> {
    [Drive(pid, trace, now)] + QueryEvents(pid, call, now) + [Recheck(pid)]
  }

  function Ended(ik: InboxKey, first: bool, resolved: bool): Proc {
    if resolved then Resolved(ik, first) else Unresolved(ik, first)
  }

  lemma DriveShape(g: Config, w: World, pid: nat, ik: InboxKey, first: bool, trace: string, now: int)
    requires pid in w.procs && w.procs[pid] == Driving(ik, first) && ik in w.inbox
    ensures Step(g, w, Drive(pid, trace, now)) == DriveStep(g, w, pid, ik, first, trace, now)
  {
    hide DriveStep;
  }

  lemma RecheckShape(g: Config, w: World, pid: nat, ik: InboxKey, first: bool)
    requires pid in w.procs && w.procs[pid] == Rechecking(ik, first) && ik in w.inbox
    ensures Step(g, w, Recheck(pid)) == RecheckStep(w, pid, ik, first)
  {
    hide RecheckStep;
  }

  lemma QuietQuery(g: Config, w: World, pid: nat, call: CallResult, now: int)
    requires pid in w.procs ==> !w.procs[pid].Querying? && !w.procs[pid].Asking? && !w.procs[pid].Answered?
    ensures Run(g, w, QueryEvents(pid, call, now)) == w
  {
    RunThree(g, w, ReadParams(pid), Reply(pid, call), SettleQuery(pid, now));
    hide Run, Step;
    IdleStep(g, w, ReadParams(pid));
    IdleStep(g, w, Reply(pid, call));
    IdleStep(g, w, SettleQuery(pid, now));
  }

  lemma ThreePhases(g: Config, w: World, pid: nat, ik: InboxKey, first: bool, call: CallResult, trace: string, now: int)
    requires pid in w.procs && w.procs[pid] == Driving(ik, first) && ik in w.inbox
    ensures Run(g, w, ResolveEvents(pid, call, trace, now)) ==
            Step(g, Run(g, DriveStep(g, w, pid, ik, first, trace, now), QueryEvents(pid, call, now)), Recheck(pid))
  {
    DriveShape(g, w, pid, ik, first, trace, now);
    hide Step, DriveStep, QueryEvents;
    RunOne(g, w, Drive(pid, trace, now));
    RunConcat(g, w, [Drive(pid, trace, now)], QueryEvents(pid, call, now));
    RunSnoc(g, w, [Drive(pid, trace, now)] + QueryEvents(pid, call, now), Recheck(pid));
  }

  /** Whether the callback of `body` goes on to query wedap. */
  predicate Asks(d: Tables, ik: InboxKey, body: CallbackBody) {
    var k := CallbackOrder(ik, body);
    CallbackTerminal(body).None? && k in d.orders && (LooksFinal(d, k) ==> d.orders[k].status == SUCCEEDED)
  }

  /** The look at the order after a query that did not converge. */
  lemma RecheckEnds(g: Config, w: World, pid: nat, ik: InboxKey, first: bool, wasSucceeded: bool, end: QueryEnd)
    requires ik in w.inbox
    requires pid in w.procs && w.procs == AfterQuery(w, pid, ForCallback(ik, first, wasSucceeded), end).procs
    ensures var k := CallbackOrder(ik, w.inbox[ik].body);
            var resolved := wasSucceeded || end.QueryConverged? || (end.NotConverged? && LooksFinal(w.db, k));
            SameBut(w, Step(g, w, Recheck(pid)), w.db, w.procs[pid := Ended(ik, first, resolved)])
  {
    hide Step, LooksFinal;
    var q := AfterQuery(w, pid, ForCallback(ik, first, wasSucceeded), end).procs[pid];
    if q.Rechecking? {
      RecheckShape(g, w, pid, ik, first);
    } else {
      IdleStep(g, w, Recheck(pid));
    }
  }

  lemma AskingIsRun(g: Config, w: World, pid: nat, ik: InboxKey, first: bool, call: CallResult, trace: string, now: int)
    requires pid in w.procs && w.procs[pid] == Driving(ik, first) && ik in w.inbox
    requires Asks(w.db, ik, w.inbox[ik].body)
    ensures var (d', resolved) := ResolveResult(g.cr, w.db, ik, w.inbox[ik].body, first, call, trace, now);
            var w1 := DriveStep(g, w, pid, ik, first, trace, now);
            SameBut(w, Step(g, Run(g, w1, QueryEvents(pid, call, now)), Recheck(pid)), d',
                    w.procs[pid := Ended(ik, first, resolved)])
  {
    var k := CallbackOrder(ik, w.inbox[ik].body);
    var wasSucceeded := LooksFinal(w.db, k);
    var why := ForCallback(ik, first, wasSucceeded);
    var w1 := Put(w, pid, Querying(k, why));
    assert DriveStep(g, w, pid, ik, first, trace, now) == w1;
    hide Run, Step, Ledger.Settle, QueryResult, QueryEvents, CallbackTerminal, LooksFinal, DriveStep;
    QueryIsRun(g, w1, pid, k, why, call, now);
    var w2 := Run(g, w1, QueryEvents(pid, call, now));
    var end := QueryResult(g.cr, w.db, k, why, call, now).1;
    PutThenAfter(w, pid, Querying(k, why), why, end);
    AfterAfter(w, w2, pid, why, end, Ended(ik, first, wasSucceeded || end.QueryConverged? || (end.NotConverged? && LooksFinal(w2.db, k))));
    RecheckEnds(g, w2, pid, ik, first, wasSucceeded, end);
    hide AfterQuery;
  }

  lemma AfterAfter(w: World, w2: World, pid: nat, why: Why, end: QueryEnd, q: Proc)
    requires why.ForCallback?
    requires w2.procs == AfterQuery(w, pid, why, end).procs
    ensures pid in w2.procs && w2.procs == AfterQuery(w2, pid, why, end).procs
    ensures w2.procs[pid := q] == w.procs[pid := q]
  {
  }

  lemma NotAskingIsRun(g: Config, w: World, pid: nat, ik: InboxKey, first: bool, call: CallResult, trace: string, now: int)
    requires pid in w.procs && w.procs[pid] == Driving(ik, first) && ik in w.inbox
    requires !Asks(w.db, ik, w.inbox[ik].body)
    ensures var (d', resolved) := ResolveResult(g.cr, w.db, ik, w.inbox[ik].body, first, call, trace, now);
            var w1 := DriveStep(g, w, pid, ik, first, trace, now);
            SameBut(w, Step(g, Run(g, w1, QueryEvents(pid, call, now)), Recheck(pid)), d',
                    w.procs[pid := Ended(ik, first, resolved)])
  {
    var w1 := DriveStep(g, w, pid, ik, first, trace, now);
    hide Run, Step, Ledger.Settle, QueryResult, QueryEvents, CallbackTerminal, LooksFinal;
    assert w1.procs[pid].Resolved? || w1.procs[pid].Unresolved?;
    QuietQuery(g, w1, pid, call, now);
    IdleStep(g, w1, Recheck(pid));
  }

  /** Driving a callback with nobody in between is a run of its own process. */
  lemma ResolveIsRun(g: Config, w: World, pid: nat, ik: InboxKey, first: bool, call: CallResult, trace: string, now: int)
    requires pid in w.procs && w.procs[pid] == Driving(ik, first) && ik in w.inbox
    ensures var (d', resolved) := ResolveResult(g.cr, w.db, ik, w.inbox[ik].body, first, call, trace, now);
            SameBut(w, Run(g, w, ResolveEvents(pid, call, trace, now)), d', w.procs[pid := Ended(ik, first, resolved)])
  {
    ThreePhases(g, w, pid, ik, first, call, trace, now);
    hide Run, Step, DriveStep, ResolveResult, ResolveEvents, QueryEvents;
    if Asks(w.db, ik, w.inbox[ik].body) {
      AskingIsRun(g, w, pid, ik, first, call, trace, now);
    } else {
      NotAskingIsRun(g, w, pid, ik, first, call, trace, now);
    }
  }

  function CallbackEvents(pid: nat, ik: InboxKey, body: CallbackBody, call: CallResult, trace: string, now: int): seq<Event> {
    [Callback(pid, ik, body)] + ResolveEvents(pid, call, trace, now) + [Mark(pid)]
  }

  datatype Receipt = Invalid | Received(deduplicated: bool)

  /** What a delivery of a callback does to the tables and the inbox when nobody comes between. */
  function CallbackResult(cr: Crypto, d: Tables, inbox: map<InboxKey, InboxRow>, ik: InboxKey, body: CallbackBody,
                          call: CallResult, trace: string, now: int): (Tables, map<InboxKey, InboxRow>)
  {
    if !Truthy(body.biz) || !Truthy(body.kind) || (ik in inbox && inbox[ik].processed) then (d, inbox)
    else
      var first := ik !in inbox;
      var stored := if first then body else inbox[ik].body;
      var (d', resolved) := ResolveResult(cr, d, ik, stored, first, call, trace, now);
      (d', if resolved then inbox[ik := InboxRow(stored, true, None)]
           else if first then inbox[ik := InboxRow(stored, false, Some("after_ingest_failed"))]
           else inbox)
  }

  /** `wedap_transaction_callback`: a repeated request is driven again from the body stored first,
      never from its own, and only while that one is not processed. */
  method WedapTransactionCallback(db: Database, inbox: Inbox, ik: InboxKey, body: CallbackBody, call: CallResult,
                                  trace: string, now: int) returns (receipt: Receipt)
    requires db.Valid()
    modifies db, inbox
    ensures db.Valid()
    ensures (db.tables, inbox.rows) == CallbackResult(db.cr, old(db.tables), old(inbox.rows), ik, body, call, trace, now)
    ensures receipt == if Truthy(body.biz) && Truthy(body.kind) then Received(ik in old(inbox.rows)) else Invalid
  {
    hide ResolveResult;
    if !Truthy(body.biz) || !Truthy(body.kind) {
      return Invalid;
    }
    var dedup := ik in inbox.rows;
    if !dedup {
      inbox.rows := inbox.rows[ik := InboxRow(body, false, None)];
      var resolved := ResolveCallbackTerminal(db, ik, body, true, call, trace, now);
      inbox.SetStatus(ik, resolved, if resolved then None else Some("after_ingest_failed"));
      UpdateTwice(old(inbox.rows), ik, InboxRow(body, false, None), inbox.rows[ik]);
    } else if !inbox.rows[ik].processed {
      var resolved := ResolveCallbackTerminal(db, ik, inbox.rows[ik].body, false, call, trace, now);
      if resolved {
        inbox.SetStatus(ik, true, None);
      }
    }
    receipt := Received(dedup);
  }

  lemma MarkShape(g: Config, w: World, pid: nat)
    requires pid in w.procs && (w.procs[pid].Resolved? || w.procs[pid].Unresolved?) && w.procs[pid].ik in w.inbox
    ensures Step(g, w, Mark(pid)) == MarkStep(w, pid, w.procs[pid])
  {
    hide MarkStep;
  }

  lemma CallbackPhases(g: Config, w: World, pid: nat, ik: InboxKey, body: CallbackBody, call: CallResult,
                       trace: string, now: int)
    ensures Run(g, w, CallbackEvents(pid, ik, body, call, trace, now)) ==
            Step(g, Run(g, CallbackStep(w, pid, ik, body), ResolveEvents(pid, call, trace, now)), Mark(pid))
  {
    assert Step(g, w, Callback(pid, ik, body)) == CallbackStep(w, pid, ik, body);
    hide Step, CallbackStep, ResolveEvents;
    RunOne(g, w, Callback(pid, ik, body));
    RunConcat(g, w, [Callback(pid, ik, body)], ResolveEvents(pid, call, trace, now));
    RunSnoc(g, w, [Callback(pid, ik, body)] + ResolveEvents(pid, call, trace, now), Mark(pid));
  }

  lemma MarkEnds(g: Config, w: World, pid: nat, ik: InboxKey, first: bool, resolved: bool)
    requires pid in w.procs && w.procs[pid] == Ended(ik, first, resolved) && ik in w.inbox
    ensures var w' := Step(g, w, Mark(pid));
            && SameBut(w.(inbox := w'.inbox), w', w.db, w.procs - {pid})
            && w'.inbox == Marked(w.inbox, ik, first, resolved)
  {
    MarkShape(g, w, pid);
    hide Step;
  }

  function Marked(inbox: map<InboxKey, InboxRow>, ik: InboxKey, first: bool, resolved: bool): map<InboxKey, InboxRow>
    requires ik in inbox
  {
    if resolved then inbox[ik := InboxRow(inbox[ik].body, true, None)]
    else if first then inbox[ik := InboxRow(inbox[ik].body, false, Some("after_ingest_failed"))]
    else inbox
  }

  lemma CallbackStarts(cr: Crypto, w: World, pid: nat, ik: InboxKey, body: CallbackBody, call: CallResult,
                       trace: string, now: int)
    requires pid !in w.procs
    requires Truthy(body.biz) && Truthy(body.kind) && (ik in w.inbox ==> !w.inbox[ik].processed)
    ensures var w1 := CallbackStep(w, pid, ik, body);
            var first := ik !in w.inbox;
            && w1.db == w.db && w1.calls == w.calls && w1.disp == w.disp
            && ik in w1.inbox && w1.procs == w.procs[pid := Driving(ik, first)]
            && var (d', resolved) := ResolveResult(cr, w.db, ik, w1.inbox[ik].body, first, call, trace, now);
               CallbackResult(cr, w.db, w.inbox, ik, body, call, trace, now) == (d', Marked(w1.inbox, ik, first, resolved))
  {
    hide ResolveResult;
    if ik !in w.inbox {
      UpdateTwice(w.inbox, ik, InboxRow(body, false, None), InboxRow(body, true, None));
      UpdateTwice(w.inbox, ik, InboxRow(body, false, None), InboxRow(body, false, Some("after_ingest_failed")));
    }
  }

  /** A delivered callback, with nobody in between, is a run of its own process. */
  lemma CallbackIsRun(g: Config, w: World, pid: nat, ik: InboxKey, body: CallbackBody, call: CallResult,
                      trace: string, now: int)
    requires pid !in w.procs
    requires Truthy(body.biz) && Truthy(body.kind) && (ik in w.inbox ==> !w.inbox[ik].processed)
    ensures var w' := Run(g, w, CallbackEvents(pid, ik, body, call, trace, now));
            && (w'.db, w'.inbox) == CallbackResult(g.cr, w.db, w.inbox, ik, body, call, trace, now)
            && w'.procs == w.procs && w'.calls == w.calls && w'.disp == w.disp
  {
    var w1 := CallbackStep(w, pid, ik, body);
    var first := ik !in w.inbox;
    CallbackStarts(g.cr, w, pid, ik, body, call, trace, now);
    CallbackPhases(g, w, pid, ik, body, call, trace, now);
    hide Run, Step, ResolveResult, ResolveEvents, Truthy, CallbackStep, CallbackResult, CallbackEvents, Marked;
    var resolved := ResolveResult(g.cr, w.db, ik, w1.inbox[ik].body, first, call, trace, now).1;
    ResolveIsRun(g, w1, pid, ik, first, call, trace, now);
    MarkEnds(g, Run(g, w1, ResolveEvents(pid, call, trace, now)), pid, ik, first, resolved);
  }
}
