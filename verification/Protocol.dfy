/** The whole service as a state machine: requests, workers and callbacks are processes that go from
    one committed transaction to the next, interleave freely and may crash anywhere; wedap's answers
    are chosen by the environment. */
module Protocol {
  import opened Prelude
  import opened States
  import opened WedapReply
  import opened MoneyWrite
  import opened AuditChain
  import opened Ledger
  import opened Confluence
  import Outbox
  import Dispatcher

  /** `uq_inbox_tenant_src_req`, for the one source WEDAP_TXN. */
  datatype InboxKey = InboxKey(tenant: string, requestId: string)

  datatype CallbackBody = CallbackBody(biz: Field, kind: Field, txnStatus: Field)

  /** `processed` is PROCESSED against RECEIVED. */
  datatype InboxRow = InboxRow(body: CallbackBody, processed: bool, error: Option<string>)

  /** What a process is submitting: a plain money write, or the reversal of another order. */
  datatype Kind = Plain | ReversalOf(ori: string)

  /** Who runs a status query. */
  datatype Why = ForReconcile | ForCallback(ik: InboxKey, first: bool, wasSucceeded: bool)

  /** A process between two of its transactions. */
  datatype Proc =
    | Calling(req: Request, kind: Kind)
    | Dialing(req: Request, kind: Kind)
    | HasReply(req: Request, kind: Kind, call: CallResult)
    | Querying(k: OrderKey, why: Why)
    | Asking(k: OrderKey, transType: string, why: Why)
    | Answered(k: OrderKey, terminal: OrderStatus, why: Why)
    | Driving(ik: InboxKey, first: bool)
    | Rechecking(ik: InboxKey, first: bool)
    | Resolved(ik: InboxKey, first: bool)
    | Unresolved(ik: InboxKey, first: bool)
  {
    predicate IsSubmit() { Calling? || Dialing? || HasReply? }
  }

  /** What wedap ever said: the raw material of every verdict. */
  datatype Input =
    | SubmitAnswer(k: OrderKey, repayment: bool, call: CallResult)
    | ReversalAnswer(k: OrderKey, ori: OrderKey, call: CallResult)
    | CallbackSaid(tenant: string, body: CallbackBody)
    | QuerySaid(k: OrderKey, transType: string, call: CallResult)

  /** `calls`, `inputs` and `feeds` are histories: the money calls made to wedap, everything it
      said, and the verdicts each order was fed, in commit order. */
  datatype World = World(
    db: Tables,
    inbox: map<InboxKey, InboxRow>,
    procs: map<nat, Proc>,
    disp: Dispatcher.State,
    calls: seq<OrderKey>,
    inputs: set<Input>,
    feeds: map<OrderKey, seq<Feed>>)

  datatype Event =
    | Start(pid: nat, req: Request, kind: Kind)
    | Dial(pid: nat)
    | Answer(pid: nat, call: CallResult)
    | Commit(pid: nat, now: int)
    | Reconcile(pid: nat, k: OrderKey)
    | ReadParams(pid: nat)
    | Reply(pid: nat, call: CallResult)
    | SettleQuery(pid: nat, now: int)
    | Callback(pid: nat, ik: InboxKey, body: CallbackBody)
    | Drive(pid: nat, trace: string, now: int)
    | Recheck(pid: nat)
    | Mark(pid: nat)
    | MarkFails(pid: nat)
    | OtherAudit(content: Content)
    | Dispatch(event: Dispatcher.Event)
    | Crash(pid: nat)

  datatype Config = Config(cr: Crypto, policy: Outbox.Policy)

  predicate IsSafeChar(c: char) {
    'A' <= c <= 'Z' || 'a' <= c <= 'z' || '0' <= c <= '9' || c == '_' || c == '-'
  }

  /** `validate_biz_seq_no` */
  predicate ValidBiz(biz: string) {
    0 < |biz| <= 32 && forall i :: 0 <= i < |biz| ==> IsSafeChar(biz[i])
  }

  predicate Truthy(f: Field) {
    (f.Text? && f.s != "") || (f.Other? && f.truthy)
  }

  function Put(w: World, pid: nat, q: Proc): World {
    w.(procs := w.procs[pid := q])
  }

  function Drop(w: World, pid: nat): World {
    w.(procs := w.procs - {pid})
  }

  function Feeding(w: World, k: OrderKey, f: Feed): World {
    if k in w.db.orders then w.(feeds := w.feeds[k := SeqAt(w.feeds, k) + [f]]) else w
  }

  function Learn(w: World, i: Input): World {
    w.(inputs := w.inputs + {i})
  }

  // ---- submits and reversals ----------------------------------------------------------------

  function StartStep(g: Config, w: World, pid: nat, req: Request, kind: Kind): World {
    if pid in w.procs || !ValidBiz(req.biz) then w
    else
      var (d', early) := Register(g.cr, w.db, req);
      var w' := w.(db := d');
      if early.Fresh? then Put(w', pid, Calling(req, kind)) else w'
  }

  function Heard(req: Request, kind: Kind, call: CallResult): Input {
    match kind
    case Plain => SubmitAnswer(req.Key(), req.repayment, call)
    case ReversalOf(ori) => ReversalAnswer(req.Key(), OrderKey(req.tenant, ori), call)
  }

  function Classify(req: Request, kind: Kind, call: CallResult): Option<Verdict> {
    match kind
    case Plain => ClassifySubmit(call, req.repayment)
    case ReversalOf(_) => ClassifyReversal(call)
  }

  /** An uncaught exception ends the request and leaves the order ACCEPTED. */
  function AnswerStep(w: World, pid: nat, req: Request, kind: Kind, call: CallResult): World {
    var w' := Learn(w, Heard(req, kind, call));
    if Classify(req, kind, call).None? then Drop(w', pid) else Put(w', pid, HasReply(req, kind, call))
  }

  function CommitStep(g: Config, w: World, pid: nat, req: Request, kind: Kind, v: Verdict, now: int): World {
    var k := req.Key();
    match kind
    case Plain =>
      Drop(Feeding(w, k, Sync(v.status)).(db := CommitSubmit(g.cr, w.db, req, v, now).0), pid)
    case ReversalOf(ori) =>
      var flips := k in w.db.orders && w.db.orders[k].status == ACCEPTED && v.status == SUCCEEDED;
      var w1 := Feeding(w, k, Sync(v.status));
      var w2 := if flips then Feeding(w1, OrderKey(req.tenant, ori), Flip) else w1;
      Drop(w2.(db := CommitReversal(g.cr, w.db, req, ori, v, now).0), pid)
  }

  // ---- status queries -----------------------------------------------------------------------

  function Finish(w: World, pid: nat, why: Why, converged: bool): World {
    match why
    case ForReconcile => Drop(w, pid)
    case ForCallback(ik, first, wasSucceeded) =>
      Put(w, pid, if wasSucceeded || converged then Resolved(ik, first) else Rechecking(ik, first))
  }

  function FinishRaised(w: World, pid: nat, why: Why): World {
    match why
    case ForReconcile => Drop(w, pid)
    case ForCallback(ik, first, wasSucceeded) =>
      Put(w, pid, if wasSucceeded then Resolved(ik, first) else Unresolved(ik, first))
  }

  function ReadParamsStep(w: World, pid: nat, k: OrderKey, why: Why): World {
    if k !in w.db.orders then Finish(w, pid, why, false)
    else
      var o := w.db.orders[k];
      if o.transType.None? || o.transType.value == "" || o.oriReqDate.None? || o.oriReqDate.value == ""
      then Finish(w, pid, why, false)
      else Put(w, pid, Asking(k, o.transType.value, why))
  }

  predicate SameIdentity(data: Data, k: OrderKey, transType: string) {
    data.oriBizSeqNo.RenderedOrEmpty() == k.biz && data.transType.RenderedOrEmpty() == transType
  }

  function ReplyStep(w: World, pid: nat, k: OrderKey, transType: string, why: Why, call: CallResult): World {
    var w' := Learn(w, QuerySaid(k, transType, call));
    match call
    case OtherException => FinishRaised(w', pid, why)
    case Returned(data) =>
      var terminal := MapTxnStatus(data.txnStatus.Rendered());
      if !SameIdentity(data, k, transType) || terminal.None? then Finish(w', pid, why, false)
      else Put(w', pid, Answered(k, terminal.value, why))
    case _ => Finish(w', pid, why, false)
  }

  function QueryFinalizer(k: OrderKey, why: Why, now: int): Finalizer {
    Finalizer(if why.ForReconcile? then RECONCILE else CALLBACK, "gateway", "reconcile-" + k.biz, now)
  }

  function SettleStep(g: Config, w: World, pid: nat, k: OrderKey, terminal: OrderStatus, why: Why, now: int): World {
    var (d', out) := Settle(g.cr, w.db, k, terminal, QueryFinalizer(k, why, now));
    Finish(Feeding(w, k, Report(terminal)).(db := d'), pid, why, out.Upgraded? || out.Converged?)
  }

  // ---- callbacks ----------------------------------------------------------------------------

  function CallbackStep(w: World, pid: nat, ik: InboxKey, body: CallbackBody): World {
    if pid in w.procs || !Truthy(body.biz) || !Truthy(body.kind) then w
    else if ik !in w.inbox then
      Put(Learn(w, CallbackSaid(ik.tenant, body)).(inbox := w.inbox[ik := InboxRow(body, false, None)]),
          pid, Driving(ik, true))
    else if !w.inbox[ik].processed then Put(w, pid, Driving(ik, false))
    else w
  }

  function CallbackOrder(ik: InboxKey, body: CallbackBody): OrderKey {
    OrderKey(ik.tenant, body.biz.Rendered())
  }

  function CallbackTerminal(body: CallbackBody): Option<OrderStatus> {
    MapTxnStatus(body.txnStatus.Rendered())
  }

  predicate LooksFinal(d: Tables, k: OrderKey) {
    k in d.orders && (d.orders[k].finalizedAt.Some? || IsTerminal(d.orders[k].status))
  }

  /** `resolve_callback_terminal` up to its first commit or its first call. */
  function DriveStep(g: Config, w: World, pid: nat, ik: InboxKey, first: bool, trace: string, now: int): World
    requires ik in w.inbox
  {
    var body := w.inbox[ik].body;
    var k := CallbackOrder(ik, body);
    match CallbackTerminal(body)
    case Some(terminal) =>
      var (d', out) := Settle(g.cr, w.db, k, terminal, Finalizer(CALLBACK, "gateway", trace, now));
      Put(Feeding(w, k, Report(terminal)).(db := d'), pid,
          if out.NoOrder? || out.Illegal? then Unresolved(ik, first) else Resolved(ik, first))
    case None =>
      if k !in w.db.orders then Put(w, pid, Unresolved(ik, first))
      else if !LooksFinal(w.db, k) then Put(w, pid, Querying(k, ForCallback(ik, first, false)))
      else if w.db.orders[k].status == SUCCEEDED then Put(w, pid, Querying(k, ForCallback(ik, first, true)))
      else Put(w, pid, Resolved(ik, first))
  }

  function RecheckStep(w: World, pid: nat, ik: InboxKey, first: bool): World
    requires ik in w.inbox
  {
    Put(w, pid, if LooksFinal(w.db, CallbackOrder(ik, w.inbox[ik].body)) then Resolved(ik, first) else Unresolved(ik, first))
  }

  function SetInbox(w: World, ik: InboxKey, processed: bool, error: Option<string>): World
    requires ik in w.inbox
  {
    w.(inbox := w.inbox[ik := InboxRow(w.inbox[ik].body, processed, error)])
  }

  function MarkStep(w: World, pid: nat, q: Proc): World
    requires (q.Resolved? || q.Unresolved?) && q.ik in w.inbox
  {
    if q.Resolved? then Drop(SetInbox(w, q.ik, true, None), pid)
    else if q.first then Drop(SetInbox(w, q.ik, false, Some("after_ingest_failed")), pid)
    else Drop(w, pid)
  }

  // ---- the machine --------------------------------------------------------------------------

  /** One step; an event whose process is not at that point changes nothing. */
  function Step(g: Config, w: World, e: Event): World {
    match e
    case Start(pid, req, kind) => StartStep(g, w, pid, req, kind)
    case Callback(pid, ik, body) => CallbackStep(w, pid, ik, body)
    case Reconcile(pid, k) => if pid in w.procs then w else Put(w, pid, Querying(k, ForReconcile))
    case OtherAudit(c) => if c.action.OrderAction? then w else w.(db := WriteAudit(g.cr, w.db, c))
    case Dispatch(de) =>
      var (rows, disp) := Dispatcher.Step(w.db.outbox, w.disp, de, g.policy);
      w.(db := w.db.(outbox := rows), disp := disp)
    case _ => if e.pid in w.procs then ProcStep(g, w, e, w.procs[e.pid]) else w
  }

  predicate OwnEvent(e: Event) {
    !e.Start? && !e.Callback? && !e.Reconcile? && !e.OtherAudit? && !e.Dispatch?
  }

  function ProcStep(g: Config, w: World, e: Event, q: Proc): World
    requires OwnEvent(e)
  {
    match (e, q)
    case (Dial(pid), Calling(req, kind)) =>
      Put(w.(calls := w.calls + [req.Key()]), pid, Dialing(req, kind))
    case (Answer(pid, call), Dialing(req, kind)) => AnswerStep(w, pid, req, kind, call)
    case (Commit(pid, now), HasReply(req, kind, call)) =>
      if Classify(req, kind, call).None? then w
      else CommitStep(g, w, pid, req, kind, Classify(req, kind, call).value, now)
    case (ReadParams(pid), Querying(k, why)) => ReadParamsStep(w, pid, k, why)
    case (Reply(pid, call), Asking(k, transType, why)) => ReplyStep(w, pid, k, transType, why, call)
    case (SettleQuery(pid, now), Answered(k, terminal, why)) => SettleStep(g, w, pid, k, terminal, why, now)
    case (Drive(pid, trace, now), Driving(ik, first)) =>
      if ik in w.inbox then DriveStep(g, w, pid, ik, first, trace, now) else w
    case (Recheck(pid), Rechecking(ik, first)) =>
      if ik in w.inbox then RecheckStep(w, pid, ik, first) else w
    case (Mark(pid), Resolved(ik, first)) => if ik in w.inbox then MarkStep(w, pid, q) else w
    case (Mark(pid), Unresolved(ik, first)) => if ik in w.inbox then MarkStep(w, pid, q) else w
    case (MarkFails(pid), Resolved(ik, first)) =>
      if first then Put(w, pid, Unresolved(ik, true)) else Drop(w, pid)
    case (Crash(pid), _) => Drop(w, pid)
    case _ => w
  }

  function Run(g: Config, w: World, evs: seq<Event>): World {
    if evs == [] then w else Step(g, Run(g, w, evs[..|evs| - 1]), evs[|evs| - 1])
  }

  /** A service that has not handled anything yet, on a database that may already hold audit rows
      of other kinds, with or without a chain head. */
  ghost predicate Initial(g: Config, w: World) {
    && w == World(Tables(map[], map[], map[], w.db.audit, []), map[], map[], Dispatcher.IDLE, [], {}, map[])
    && WellSized(g.cr.audit)
    && AuditOk(g.cr, w.db)
    && UnknownOk(w.db)
  }
}
