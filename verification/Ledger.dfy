/** The gateway's tables and its transactions, each as a function from tables to tables. An aborted
    transaction is the identity. */
module Ledger {
  import opened Prelude
  import opened States
  import opened WedapReply
  import opened MoneyWrite
  import opened AuditChain
  import Outbox

  /** `uq_order_tenant_biz` */
  datatype OrderKey = OrderKey(tenant: string, biz: string)

  /** `uq_idem_triple` */
  datatype IdemKey = IdemKey(tenant: string, scope: string, key: string)

  datatype Order = Order(
    status: OrderStatus,
    action: string,
    amount: string,
    transType: Option<string>,
    oriReqDate: Option<string>,
    submittedAt: Option<int>,
    finalizedAt: Option<int>,
    finalizedVia: Option<Source>)

  datatype IdemRow = IdemRow(fingerprint: string, response: Option<Response>)

  /** `trail` is a history: every status ever assigned to an order, in order of assignment. */
  datatype Tables = Tables(
    orders: map<OrderKey, Order>,
    trail: map<OrderKey, seq<OrderStatus>>,
    idem: map<IdemKey, IdemRow>,
    audit: map<string, TenantAudit>,
    outbox: seq<Outbox.OutRow>)

  /** The two digests in use: of audit rows and of request payloads. */
  datatype Crypto = Crypto(audit: Digest, fingerprint: string -> string)

  datatype Request = Request(
    tenant: string,
    biz: string,
    scope: string,
    action: string,
    amount: string,
    caller: string,
    requestId: string,
    payload: string,
    transType: Field,
    oriReqDate: Option<string>,
    repayment: bool)
  {
    function Key(): OrderKey { OrderKey(tenant, biz) }

    function Idem(): IdemKey { IdemKey(tenant, scope, biz) }
  }

  function NonEmpty(s: string): Option<string> {
    if s == "" then None else Some(s)
  }

  function AuditOf(d: Tables, tenant: string): TenantAudit {
    if tenant in d.audit then d.audit[tenant] else TenantAudit([], None)
  }

  // ---- building blocks ----------------------------------------------------------------------

  function SetStatus(d: Tables, k: OrderKey, s: OrderStatus): Tables
    requires k in d.orders
  {
    d.(orders := d.orders[k := d.orders[k].(status := s)], trail := d.trail[k := SeqAt(d.trail, k) + [s]])
  }

  function WriteAudit(cr: Crypto, d: Tables, c: Content): Tables {
    d.(audit := d.audit[c.tenant := Append(cr.audit, AuditOf(d, c.tenant), c)])
  }

  function OrderContent(k: OrderKey, caller: string, s: OrderStatus, payload: Payload): Content {
    Content(k.tenant, "svc:" + caller, OrderAction(s), OrderEntity(k.biz), payload)
  }

  /** Who finalizes, from where, and when. */
  datatype Finalizer = Finalizer(source: Source, caller: string, trace: string, now: int)

  function Stamp(o: Order, f: Finalizer): Order {
    o.(finalizedAt := if o.finalizedAt.Some? then o.finalizedAt else Some(f.now), finalizedVia := Some(f.source))
  }

  function Forward(d: Tables, k: OrderKey, o: Order, f: Finalizer): Tables {
    d.(outbox := Outbox.Enqueue(d.outbox, k.tenant, Outbox.LIFECYCLE,
                                Outbox.TerminalEvent(k.biz, o.action, o.status, f.source),
                                Outbox.DedupKey(k.tenant, k.biz, o.status), f.trace))
  }

  /** `finalize_terminal_in_session` */
  function Finalize(cr: Crypto, d: Tables, k: OrderKey, f: Finalizer, upgradeFrom: Option<OrderStatus>): Tables
    requires k in d.orders
    ensures Finalize(cr, d, k, f, upgradeFrom).idem == d.idem
    ensures Finalize(cr, d, k, f, upgradeFrom).orders.Keys == d.orders.Keys
  {
    var o := d.orders[k];
    if o.finalizedAt.Some? && upgradeFrom.None? then d
    else
      var d1 := d.(orders := d.orders[k := Stamp(o, f)]);
      var d2 := WriteAudit(cr, d1, OrderContent(k, f.caller, o.status, FinalizedPayload(f.source, upgradeFrom)));
      Forward(d2, k, o, f)
  }

  /** Assign a terminal status, then finalize. */
  function Enter(cr: Crypto, d: Tables, k: OrderKey, s: OrderStatus, f: Finalizer,
                 upgradeFrom: Option<OrderStatus>): Tables
    requires k in d.orders
  {
    Finalize(cr, SetStatus(d, k, s), k, f, upgradeFrom)
  }

  // ---- transaction 1 of a submit or a reversal ----------------------------------------------

  datatype Early =
    | Fresh
    | Replay(response: Response)
    | InFlight(response: Response)
    | PayloadMismatch
    | KeyStateConflict

  function NewOrder(req: Request): Order {
    Order(ACCEPTED, req.action, req.amount, NonEmpty(req.transType.RenderedOrEmpty()), req.oriReqDate,
          None, None, None)
  }

  /** `register_and_accept_order`: when the order row exists without its idempotency row both inserts
      are rolled back. */
  function Register(cr: Crypto, d: Tables, req: Request): (Tables, Early) {
    if req.Idem() in d.idem then
      var row := d.idem[req.Idem()];
      if row.fingerprint != cr.fingerprint(req.payload) then (d, PayloadMismatch)
      else if row.response.None? then (d, InFlight(InFlightResponse(req.repayment)))
      else (d, Replay(row.response.value))
    else if req.Key() in d.orders then (d, KeyStateConflict)
    else
      (d.(idem := d.idem[req.Idem() := IdemRow(cr.fingerprint(req.payload), None)],
          orders := d.orders[req.Key() := NewOrder(req)],
          trail := d.trail[req.Key() := [ACCEPTED]]),
       Fresh)
  }

  // ---- transaction 2 ------------------------------------------------------------------------

  function SyncFinalizer(req: Request, now: int): Finalizer {
    Finalizer(SYNC, req.caller, req.requestId, now)
  }

  /** Advance the order if it is still ACCEPTED. */
  function Cas(cr: Crypto, d: Tables, req: Request, s: OrderStatus, now: int): Tables
    requires req.Key() in d.orders
    ensures Cas(cr, d, req, s, now).idem == d.idem
    ensures Cas(cr, d, req, s, now).orders.Keys == d.orders.Keys
  {
    var k := req.Key();
    if d.orders[k].status != ACCEPTED then d
    else
      var d1 := SetStatus(d, k, s);
      var d2 := d1.(orders := d1.orders[k := d1.orders[k].(submittedAt := Some(now))]);
      if IsTerminal(s) then Finalize(cr, d2, k, SyncFinalizer(req, now), None)
      else WriteAudit(cr, d2, OrderContent(k, req.caller, s, SubmittedPayload(req.action, req.amount)))
  }

  predicate Recorded(d: Tables, ik: IdemKey, r: Response) {
    ik in d.idem && d.idem[ik].response == Some(r)
  }

  function RecordResponse(d: Tables, ik: IdemKey, r: Response): Tables
    requires ik in d.idem
  {
    d.(idem := d.idem[ik := d.idem[ik].(response := Some(r))])
  }

  /** Transaction 2 of `submit_order`; None when a row is missing and the transaction aborts. */
  function CommitSubmit(cr: Crypto, d: Tables, req: Request, v: Verdict, now: int): (Tables, Option<Response>) {
    if req.Key() !in d.orders || req.Idem() !in d.idem then (d, None)
    else
      var casApplied := d.orders[req.Key()].status == ACCEPTED;
      var d1 := Cas(cr, d, req, v.status, now);
      var r := FinalResponse(v, d1.orders[req.Key()].status, casApplied, req.repayment);
      (RecordResponse(d1, req.Idem(), r), Some(r))
  }

  /** `_reverse_original` */
  function ReverseOriginal(cr: Crypto, d: Tables, k: OrderKey, f: Finalizer): Tables
    ensures ReverseOriginal(cr, d, k, f).idem == d.idem
    ensures ReverseOriginal(cr, d, k, f).orders.Keys == d.orders.Keys
  {
    if k !in d.orders || !MayMove(d.orders[k].status, REVERSED) then d
    else Enter(cr, d, k, REVERSED, f, Some(d.orders[k].status))
  }

  /** Advance the reversal order; the original is flipped only when that CAS applied. */
  function AdvanceReversal(cr: Crypto, d: Tables, req: Request, ori: string, s: OrderStatus, now: int): Tables
    requires req.Key() in d.orders
    ensures AdvanceReversal(cr, d, req, ori, s, now).idem == d.idem
    ensures AdvanceReversal(cr, d, req, ori, s, now).orders.Keys == d.orders.Keys
  {
    var d1 := Cas(cr, d, req, s, now);
    if d.orders[req.Key()].status == ACCEPTED && s == SUCCEEDED
    then ReverseOriginal(cr, d1, OrderKey(req.tenant, ori), SyncFinalizer(req, now))
    else d1
  }

  /** Transaction 2 of `submit_reversal`. */
  function CommitReversal(cr: Crypto, d: Tables, req: Request, ori: string, v: Verdict, now: int)
    : (Tables, Option<Response>)
  {
    if req.Key() !in d.orders || req.Idem() !in d.idem then (d, None)
    else
      var casApplied := d.orders[req.Key()].status == ACCEPTED;
      var d1 := AdvanceReversal(cr, d, req, ori, v.status, now);
      var r := FinalResponse(v, d1.orders[req.Key()].status, casApplied, false);
      (RecordResponse(d1, req.Idem(), r), Some(r))
  }

  // ---- callback and reconcile ---------------------------------------------------------------

  datatype Settled = NoOrder | Upgraded | Unchanged | Illegal | Converged

  /** The locked transaction shared by `resolve_callback_terminal` and
      `resolve_terminal_via_status_query`. */
  function Settle(cr: Crypto, d: Tables, k: OrderKey, terminal: OrderStatus, f: Finalizer): (Tables, Settled) {
    if k !in d.orders then (d, NoOrder)
    else
      var o := d.orders[k];
      if o.finalizedAt.Some? || IsAbsorbing(o.status) then
        if o.status == SUCCEEDED && terminal == REVERSED
        then (Enter(cr, d, k, REVERSED, f, Some(SUCCEEDED)), Upgraded)
        else (d, Unchanged)
      else if !MayMove(o.status, terminal) then (d, Illegal)
      else (Enter(cr, d, k, terminal, f, None), Converged)
  }

  // ---- invariant ----------------------------------------------------------------------------

  /** The statuses the audit log names for an order, in chain order. */
  function Logged(d: Tables, k: OrderKey): seq<OrderStatus> {
    LoggedStatuses(AuditOf(d, k.tenant).log, k.biz)
  }

  const REACHABLE: set<OrderStatus> := {ACCEPTED, SUBMITTED, RESULT_UNKNOWN, SUCCEEDED, FAILED, REVERSED}

  /** The order's status sequence follows the table, ends in its status and is what the audit log
      says; it carries a finalization time exactly when its status is terminal. */
  ghost predicate OrderOk(d: Tables, k: OrderKey)
    requires k in d.orders
  {
    && IsPath(SeqAt(d.trail, k))
    && SeqAt(d.trail, k)[|SeqAt(d.trail, k)| - 1] == d.orders[k].status
    && (forall s :: s in SeqAt(d.trail, k) ==> s in REACHABLE)
    && Logged(d, k) == SeqAt(d.trail, k)[1..]
    && (d.orders[k].finalizedAt.Some? <==> IsTerminal(d.orders[k].status))
  }

  ghost predicate KnownOk(d: Tables) {
    forall k :: k in d.orders ==> OrderOk(d, k)
  }

  /** Orders not yet registered have no history in the log. */
  ghost predicate UnknownOk(d: Tables) {
    forall k: OrderKey :: k !in d.orders ==> Logged(d, k) == []
  }

  ghost predicate TrailOk(d: Tables) {
    forall k: OrderKey :: k in d.trail <==> k in d.orders
  }

  ghost predicate OrdersOk(d: Tables) {
    TrailOk(d) && KnownOk(d) && UnknownOk(d)
  }

  ghost predicate AuditOk(cr: Crypto, d: Tables) {
    forall t: string :: Consistent(cr.audit, AuditOf(d, t))
  }

  ghost predicate RowOk(d: Tables, r: Outbox.OutRow) {
    var k := OrderKey(r.tenant, r.payload.biz);
    && r.target == Outbox.LIFECYCLE
    && r.dedup == Outbox.DedupKey(r.tenant, r.payload.biz, r.payload.status)
    && k in d.orders
    && r.payload.action == d.orders[k].action
    && IsTerminal(r.payload.status)
    && r.payload.status in SeqAt(d.trail, k)
  }

  ghost predicate Forwarded(d: Tables, k: OrderKey, s: OrderStatus) {
    Outbox.Enqueued(d.outbox, k.tenant, Outbox.LIFECYCLE, Outbox.DedupKey(k.tenant, k.biz, s))
  }

  predicate SameUniqueKey(x: Outbox.OutRow, y: Outbox.OutRow) {
    Outbox.HasKey(x, y.tenant, y.target, y.dedup)
  }

  /** Every outbox row stands for one order having entered one terminal status; no two rows share a
      key; and every terminal status ever entered has its row. */
  ghost predicate OutboxOk(d: Tables) {
    && (forall i :: 0 <= i < |d.outbox| ==> RowOk(d, d.outbox[i]))
    && (forall i, j :: 0 <= i < j < |d.outbox| ==> !SameUniqueKey(d.outbox[i], d.outbox[j]))
    && (forall k: OrderKey, s: OrderStatus :: s in SeqAt(d.trail, k) && IsTerminal(s) ==> Forwarded(d, k, s))
  }

  /** An idempotency row exists only with its order, and one order has one row, whatever the scope. */
  ghost predicate IdemOk(d: Tables) {
    && (forall ik: IdemKey :: ik in d.idem ==> OrderKey(ik.tenant, ik.key) in d.orders)
    && (forall ik: IdemKey, jk: IdemKey ::
          ik in d.idem && jk in d.idem && ik.tenant == jk.tenant && ik.key == jk.key ==> ik == jk)
  }

  ghost predicate TablesOk(cr: Crypto, d: Tables) {
    WellSized(cr.audit) && OrdersOk(d) && AuditOk(cr, d) && OutboxOk(d) && IdemOk(d)
  }

  // ---- preservation -------------------------------------------------------------------------

  lemma PathExtends(p: seq<OrderStatus>, s: OrderStatus)
    requires IsPath(p)
    requires MayMove(p[|p| - 1], s)
    ensures IsPath(p + [s])
    ensures (p + [s])[1..] == p[1..] + [s]
    ensures s !in {PROCESSING, RESULT_UNKNOWN} ==> s !in p
  {
    var q := p + [s];
    forall i: nat | i < |q| - 1 ensures StepAt(q, i) {
      assert i < |p| - 1 ==> StepAt(p, i);
    }
    if s in p && s !in {PROCESSING, RESULT_UNKNOWN} {
      var i :| 0 <= i < |p| && p[i] == s;
      PathVisitsOnce(q, i, |p|);
    }
  }

  lemma AuditStaysOk(cr: Crypto, d: Tables, c: Content)
    requires WellSized(cr.audit) && AuditOk(cr, d)
    ensures AuditOk(cr, WriteAudit(cr, d, c))
  {
    var d' := WriteAudit(cr, d, c);
    AppendKeepsChain(cr.audit, AuditOf(d, c.tenant), c);
    forall t: string ensures Consistent(cr.audit, AuditOf(d', t)) {
      assert Consistent(cr.audit, AuditOf(d, t));
    }
  }

  predicate Names(c: Content, k: OrderKey) {
    c.tenant == k.tenant && c.entity == OrderEntity(k.biz) && c.action.OrderAction?
  }

  /** One audit row lengthens the history of the order it names, and of no other. */
  lemma LogGrows(cr: Crypto, d: Tables, c: Content, k: OrderKey)
    ensures Logged(WriteAudit(cr, d, c), k) == Logged(d, k) + (if Names(c, k) then [c.action.status] else [])
  {
    if c.tenant == k.tenant {
      LoggedAppend(AuditOf(d, c.tenant).log, Link(cr.audit, c, Prev(cr.audit, AuditOf(d, c.tenant))), k.biz);
    }
  }

  /** What every status change does to the tables, whoever makes it: the order `k` goes from its
      status to `s`, one audit row says so, and its other columns may be stamped. */
  ghost predicate Moves(cr: Crypto, d: Tables, d': Tables, k: OrderKey, s: OrderStatus, c: Content) {
    && k in d.orders
    && d'.orders.Keys == d.orders.Keys
    && d'.orders == d.orders[k := d'.orders[k]]
    && d'.orders[k].status == s
    && d'.orders[k].action == d.orders[k].action
    && d'.orders[k].transType == d.orders[k].transType
    && d'.trail == d.trail[k := SeqAt(d.trail, k) + [s]]
    && d'.audit == WriteAudit(cr, d, c).audit
    && c.tenant == k.tenant && c.entity == OrderEntity(k.biz) && c.action == OrderAction(s)
    && d'.idem == d.idem
  }

  lemma MovedOrderOk(cr: Crypto, d: Tables, d': Tables, k: OrderKey, s: OrderStatus, c: Content)
    requires Moves(cr, d, d', k, s, c)
    requires OrderOk(d, k)
    requires MayMove(d.orders[k].status, s) && s in REACHABLE
    requires d'.orders[k].finalizedAt.Some? <==> IsTerminal(s)
    ensures OrderOk(d', k)
  {
    LogGrows(cr, d, c, k);
    PathExtends(d.trail[k], s);
    assert Logged(d', k) == Logged(WriteAudit(cr, d, c), k);
  }

  lemma OtherOrderOk(cr: Crypto, d: Tables, d': Tables, k: OrderKey, s: OrderStatus, c: Content, j: OrderKey)
    requires Moves(cr, d, d', k, s, c)
    requires j != k
    ensures Logged(d', j) == Logged(d, j)
    ensures j in d.orders && OrderOk(d, j) ==> OrderOk(d', j)
  {
    LogGrows(cr, d, c, j);
    assert Logged(d', j) == Logged(WriteAudit(cr, d, c), j);
    assert !Names(c, j);
    assert Logged(d', j) == Logged(d, j);
  }

  lemma MoveKeepsKnown(cr: Crypto, d: Tables, d': Tables, k: OrderKey, s: OrderStatus, c: Content)
    requires KnownOk(d)
    requires Moves(cr, d, d', k, s, c)
    requires MayMove(d.orders[k].status, s) && s in REACHABLE
    requires d'.orders[k].finalizedAt.Some? <==> IsTerminal(s)
    ensures KnownOk(d')
  {
    forall j | j in d'.orders ensures OrderOk(d', j) {
      assert OrderOk(d, j);
      if j == k { MovedOrderOk(cr, d, d', k, s, c); } else { OtherOrderOk(cr, d, d', k, s, c, j); }
    }
  }

  lemma MoveKeepsKeys(cr: Crypto, d: Tables, d': Tables, k: OrderKey, s: OrderStatus, c: Content)
    requires TrailOk(d) && IdemOk(d)
    requires Moves(cr, d, d', k, s, c)
    ensures TrailOk(d') && IdemOk(d')
  {
  }

  lemma MoveKeepsUnknown(cr: Crypto, d: Tables, d': Tables, k: OrderKey, s: OrderStatus, c: Content)
    requires UnknownOk(d)
    requires Moves(cr, d, d', k, s, c)
    ensures UnknownOk(d')
  {
    forall j: OrderKey | j !in d'.orders ensures Logged(d', j) == [] {
      OtherOrderOk(cr, d, d', k, s, c, j);
    }
  }

  lemma MoveKeepsAudit(cr: Crypto, d: Tables, d': Tables, k: OrderKey, s: OrderStatus, c: Content)
    requires WellSized(cr.audit) && AuditOk(cr, d)
    requires Moves(cr, d, d', k, s, c)
    ensures AuditOk(cr, d')
  {
    AuditStaysOk(cr, d, c);
    SameAuditOk(cr, WriteAudit(cr, d, c), d');
  }

  lemma SameAuditOk(cr: Crypto, d: Tables, d': Tables)
    requires AuditOk(cr, d) && d'.audit == d.audit
    ensures AuditOk(cr, d')
  {
    forall t: string ensures Consistent(cr.audit, AuditOf(d', t)) {
      assert Consistent(cr.audit, AuditOf(d, t));
    }
  }

  /** Entering a non-terminal status keeps the outbox as it was. */
  lemma NonTerminalKeepsOutbox(cr: Crypto, d: Tables, d': Tables, k: OrderKey, s: OrderStatus, c: Content)
    requires OutboxOk(d)
    requires Moves(cr, d, d', k, s, c)
    requires !IsTerminal(s)
    requires d'.outbox == d.outbox
    ensures OutboxOk(d')
  {
    forall i | 0 <= i < |d'.outbox| ensures RowOk(d', d'.outbox[i]) {
      assert RowOk(d, d.outbox[i]);
    }
    forall j: OrderKey, t: OrderStatus | t in SeqAt(d'.trail, j) && IsTerminal(t) ensures Forwarded(d', j, t) {
      assert t in SeqAt(d.trail, j);
      assert Forwarded(d, j, t);
    }
  }

  /** The key of a status the order has never been in is free. */
  lemma NewStatusHasNoRow(d: Tables, k: OrderKey, s: OrderStatus)
    requires forall i :: 0 <= i < |d.outbox| ==> RowOk(d, d.outbox[i])
    requires s !in SeqAt(d.trail, k)
    ensures !Forwarded(d, k, s)
  {
    forall i | 0 <= i < |d.outbox|
      ensures !Outbox.HasKey(d.outbox[i], k.tenant, Outbox.LIFECYCLE, Outbox.DedupKey(k.tenant, k.biz, s))
    {
      var r := d.outbox[i];
      assert RowOk(d, r);
      if r.tenant == k.tenant && r.dedup == Outbox.DedupKey(k.tenant, k.biz, s) {
        Outbox.DedupKeyInjective(k.tenant, k.biz, s, r.payload.biz, r.payload.status);
      }
    }
  }

  function EventRow(d: Tables, k: OrderKey, s: OrderStatus, f: Finalizer): Outbox.OutRow
    requires k in d.orders
  {
    Outbox.FreshRow(k.tenant, Outbox.LIFECYCLE, Outbox.TerminalEvent(k.biz, d.orders[k].action, s, f.source),
                    Outbox.DedupKey(k.tenant, k.biz, s), f.trace)
  }

  /** Entering a terminal status adds exactly its row. */
  lemma TerminalExtendsOutbox(cr: Crypto, d: Tables, d': Tables, k: OrderKey, s: OrderStatus, c: Content, f: Finalizer)
    requires OutboxOk(d)
    requires Moves(cr, d, d', k, s, c)
    requires OrderOk(d, k)
    requires MayMove(d.orders[k].status, s) && IsTerminal(s)
    requires d'.outbox == Outbox.Enqueue(d.outbox, k.tenant, Outbox.LIFECYCLE,
                            Outbox.TerminalEvent(k.biz, d.orders[k].action, s, f.source),
                            Outbox.DedupKey(k.tenant, k.biz, s), f.trace)
    ensures d'.outbox == d.outbox + [EventRow(d, k, s, f)]
    ensures OutboxOk(d')
  {
    PathExtends(d.trail[k], s);
    NewStatusHasNoRow(d, k, s);
    assert d'.outbox == d.outbox + [EventRow(d, k, s, f)];
    RowAppended(d, d', k, s, EventRow(d, k, s, f));
  }

  lemma RowAppended(d: Tables, d': Tables, k: OrderKey, s: OrderStatus, r: Outbox.OutRow)
    requires OutboxOk(d)
    requires d'.orders.Keys >= d.orders.Keys
    requires forall j :: j in d.orders ==> d'.orders[j].action == d.orders[j].action
    requires d'.trail == d.trail[k := SeqAt(d.trail, k) + [s]]
    requires d'.outbox == d.outbox + [r]
    requires RowOk(d', r) && r.tenant == k.tenant && r.payload.biz == k.biz && r.payload.status == s
    requires !Forwarded(d, k, s)
    ensures OutboxOk(d')
  {
    var n := |d.outbox|;
    forall i | 0 <= i < n + 1 ensures RowOk(d', d'.outbox[i]) {
      if i < n { assert RowOk(d, d.outbox[i]); }
    }
    forall i, j | 0 <= i < j < n + 1 ensures !SameUniqueKey(d'.outbox[i], d'.outbox[j]) {
      if j == n {
        assert !Outbox.HasKey(d.outbox[i], k.tenant, Outbox.LIFECYCLE, r.dedup);
      } else {
        assert !SameUniqueKey(d.outbox[i], d.outbox[j]);
      }
    }
    forall j: OrderKey, t: OrderStatus | t in SeqAt(d'.trail, j) && IsTerminal(t) ensures Forwarded(d', j, t) {
      if j == k && t == s {
        assert d'.outbox[n] == r;
      } else {
        assert t in SeqAt(d.trail, j);
        ForwardedGrows(d, d', j, t);
      }
    }
  }

  lemma ForwardedGrows(d: Tables, d': Tables, k: OrderKey, s: OrderStatus)
    requires Forwarded(d, k, s)
    requires d.outbox <= d'.outbox
    ensures Forwarded(d', k, s)
  {
    var i :| 0 <= i < |d.outbox| && Outbox.HasKey(d.outbox[i], k.tenant, Outbox.LIFECYCLE, Outbox.DedupKey(k.tenant, k.biz, s));
    assert d'.outbox[i] == d.outbox[i];
  }

  lemma EnterMoves(cr: Crypto, d: Tables, k: OrderKey, s: OrderStatus, f: Finalizer, up: Option<OrderStatus>)
    requires k in d.orders
    requires up.None? ==> d.orders[k].finalizedAt.None?
    ensures var d' := Enter(cr, d, k, s, f, up);
            && Moves(cr, d, d', k, s, OrderContent(k, f.caller, s, FinalizedPayload(f.source, up)))
            && d'.orders[k] == Stamp(d.orders[k].(status := s), f)
            && d'.outbox == Outbox.Enqueue(d.outbox, k.tenant, Outbox.LIFECYCLE,
                              Outbox.TerminalEvent(k.biz, d.orders[k].action, s, f.source),
                              Outbox.DedupKey(k.tenant, k.biz, s), f.trace)
  {
  }

  /** Entering a terminal status by any of the five writers keeps the tables good. */
  lemma EnterKeepsTables(cr: Crypto, d: Tables, k: OrderKey, s: OrderStatus, f: Finalizer, up: Option<OrderStatus>)
    requires TablesOk(cr, d)
    requires k in d.orders && MayMove(d.orders[k].status, s) && IsTerminal(s)
    requires up.None? ==> !IsTerminal(d.orders[k].status)
    ensures TablesOk(cr, Enter(cr, d, k, s, f, up))
  {
    assert OrderOk(d, k);
    EnterMoves(cr, d, k, s, f, up);
    TerminalMoveKeepsTables(cr, d, Enter(cr, d, k, s, f, up), k, s, OrderContent(k, f.caller, s, FinalizedPayload(f.source, up)), f);
  }

  lemma TerminalMoveKeepsTables(cr: Crypto, d: Tables, d': Tables, k: OrderKey, s: OrderStatus, c: Content, f: Finalizer)
    requires TablesOk(cr, d)
    requires Moves(cr, d, d', k, s, c)
    requires MayMove(d.orders[k].status, s) && IsTerminal(s)
    requires d'.orders[k].finalizedAt.Some?
    requires d'.outbox == Outbox.Enqueue(d.outbox, k.tenant, Outbox.LIFECYCLE,
                            Outbox.TerminalEvent(k.biz, d.orders[k].action, s, f.source),
                            Outbox.DedupKey(k.tenant, k.biz, s), f.trace)
    ensures TablesOk(cr, d')
  {
    assert OrderOk(d, k);
    MoveKeepsKnown(cr, d, d', k, s, c);
    MoveKeepsKeys(cr, d, d', k, s, c);
    MoveKeepsUnknown(cr, d, d', k, s, c);
    MoveKeepsAudit(cr, d, d', k, s, c);
    TerminalExtendsOutbox(cr, d, d', k, s, c, f);
  }

  lemma NonTerminalMoveKeepsTables(cr: Crypto, d: Tables, d': Tables, k: OrderKey, s: OrderStatus, c: Content)
    requires TablesOk(cr, d)
    requires Moves(cr, d, d', k, s, c)
    requires MayMove(d.orders[k].status, s) && !IsTerminal(s) && s in REACHABLE
    requires d'.orders[k].finalizedAt.None?
    requires d'.outbox == d.outbox
    ensures TablesOk(cr, d')
  {
    MoveKeepsKnown(cr, d, d', k, s, c);
    MoveKeepsKeys(cr, d, d', k, s, c);
    MoveKeepsUnknown(cr, d, d', k, s, c);
    MoveKeepsAudit(cr, d, d', k, s, c);
    NonTerminalKeepsOutbox(cr, d, d', k, s, c);
  }

  lemma CasMoves(cr: Crypto, d: Tables, req: Request, s: OrderStatus, now: int)
    requires req.Key() in d.orders
    requires d.orders[req.Key()].status == ACCEPTED && d.orders[req.Key()].finalizedAt.None?
    ensures var k, d' := req.Key(), Cas(cr, d, req, s, now);
            if IsTerminal(s) then
              && Moves(cr, d, d', k, s, OrderContent(k, req.caller, s, FinalizedPayload(SYNC, None)))
              && d'.orders[k].finalizedAt.Some?
              && d'.outbox == Outbox.Enqueue(d.outbox, k.tenant, Outbox.LIFECYCLE,
                                Outbox.TerminalEvent(k.biz, d.orders[k].action, s, SYNC),
                                Outbox.DedupKey(k.tenant, k.biz, s), req.requestId)
            else
              && Moves(cr, d, d', k, s, OrderContent(k, req.caller, s, SubmittedPayload(req.action, req.amount)))
              && d'.orders[k].finalizedAt.None?
              && d'.outbox == d.outbox
  {
  }

  lemma CasKeepsTables(cr: Crypto, d: Tables, req: Request, s: OrderStatus, now: int)
    requires TablesOk(cr, d)
    requires req.Key() in d.orders
    requires MayMove(ACCEPTED, s) && s in REACHABLE
    ensures TablesOk(cr, Cas(cr, d, req, s, now))
  {
    var k, d' := req.Key(), Cas(cr, d, req, s, now);
    if d.orders[k].status == ACCEPTED {
      assert OrderOk(d, k);
      CasMoves(cr, d, req, s, now);
      if IsTerminal(s) {
        TerminalMoveKeepsTables(cr, d, d', k, s, OrderContent(k, req.caller, s, FinalizedPayload(SYNC, None)), SyncFinalizer(req, now));
      } else {
        NonTerminalMoveKeepsTables(cr, d, d', k, s, OrderContent(k, req.caller, s, SubmittedPayload(req.action, req.amount)));
      }
    }
  }

  lemma ReverseOriginalKeepsTables(cr: Crypto, d: Tables, k: OrderKey, f: Finalizer)
    requires TablesOk(cr, d)
    ensures TablesOk(cr, ReverseOriginal(cr, d, k, f))
  {
    if k in d.orders && MayMove(d.orders[k].status, REVERSED) {
      EnterKeepsTables(cr, d, k, REVERSED, f, Some(d.orders[k].status));
    }
  }

  lemma RecordKeepsTables(cr: Crypto, d: Tables, ik: IdemKey, r: Response)
    requires TablesOk(cr, d)
    requires ik in d.idem
    ensures TablesOk(cr, RecordResponse(d, ik, r))
  {
    var d' := RecordResponse(d, ik, r);
    SameAuditOk(cr, d, d');
    SameOrdersOk(d, d');
    SameOutboxOk(d, d');
  }

  lemma SameOrdersOk(d: Tables, d': Tables)
    requires OrdersOk(d)
    requires d'.orders == d.orders && d'.trail == d.trail && d'.audit == d.audit
    ensures OrdersOk(d')
  {
    forall k: OrderKey ensures Logged(d', k) == Logged(d, k) {
    }
    forall k | k in d'.orders ensures OrderOk(d', k) {
      assert OrderOk(d, k);
    }
  }

  lemma SameOutboxOk(d: Tables, d': Tables)
    requires OutboxOk(d)
    requires d'.orders == d.orders && d'.trail == d.trail && d'.outbox == d.outbox
    ensures OutboxOk(d')
  {
    forall i | 0 <= i < |d'.outbox| ensures RowOk(d', d'.outbox[i]) {
      assert RowOk(d, d.outbox[i]);
    }
    forall k: OrderKey, s: OrderStatus | s in SeqAt(d'.trail, k) && IsTerminal(s) ensures Forwarded(d', k, s) {
      assert Forwarded(d, k, s);
    }
  }

  /** Registration either changes nothing or adds one order and its idempotency row. */
  lemma RegisterEffect(cr: Crypto, d: Tables, req: Request)
    ensures var (d', early) := Register(cr, d, req);
            if early.Fresh? then
              && req.Key() !in d.orders && req.Idem() !in d.idem
              && d' == d.(idem := d.idem[req.Idem() := IdemRow(cr.fingerprint(req.payload), None)],
                          orders := d.orders[req.Key() := NewOrder(req)],
                          trail := d.trail[req.Key() := [ACCEPTED]])
            else d' == d
  {
  }

  lemma RegisterKeepsTables(cr: Crypto, d: Tables, req: Request)
    requires TablesOk(cr, d)
    ensures TablesOk(cr, Register(cr, d, req).0)
  {
    var d' := Register(cr, d, req).0;
    RegisterEffect(cr, d, req);
    if d' != d {
      SameAuditOk(cr, d, d');
      NewOrderKeepsOrders(d, d', req.Key());
      NewOrderKeepsOutbox(d, d', req.Key());
      NewRowKeepsIdem(d, d', req.Idem());
    }
  }

  lemma NewRowKeepsIdem(d: Tables, d': Tables, ik: IdemKey)
    requires IdemOk(d)
    requires OrderKey(ik.tenant, ik.key) !in d.orders
    requires d'.orders.Keys == d.orders.Keys + {OrderKey(ik.tenant, ik.key)}
    requires d'.idem.Keys == d.idem.Keys + {ik}
    ensures IdemOk(d')
  {
  }

  lemma NewOrderKeepsOrders(d: Tables, d': Tables, k: OrderKey)
    requires OrdersOk(d)
    requires k !in d.orders && k in d'.orders && d'.orders == d.orders[k := d'.orders[k]]
    requires d'.orders[k].status == ACCEPTED && d'.orders[k].finalizedAt.None?
    requires d'.trail == d.trail[k := [ACCEPTED]] && d'.audit == d.audit
    ensures OrdersOk(d')
  {
    assert forall j: OrderKey :: Logged(d', j) == Logged(d, j);
    forall j | j in d'.orders ensures OrderOk(d', j) {
      if j != k { assert OrderOk(d, j); }
    }
  }

  lemma NewOrderKeepsOutbox(d: Tables, d': Tables, k: OrderKey)
    requires OutboxOk(d)
    requires k !in d.orders && k in d'.orders && d'.orders == d.orders[k := d'.orders[k]]
    requires d'.trail == d.trail[k := [ACCEPTED]] && d'.outbox == d.outbox
    ensures OutboxOk(d')
  {
    forall i | 0 <= i < |d'.outbox| ensures RowOk(d', d'.outbox[i]) {
      assert RowOk(d, d.outbox[i]);
    }
    forall j: OrderKey, s: OrderStatus | s in SeqAt(d'.trail, j) && IsTerminal(s) ensures Forwarded(d', j, s) {
      assert j != k;
      assert Forwarded(d, j, s);
    }
  }

  lemma CommitSubmitKeepsTables(cr: Crypto, d: Tables, req: Request, v: Verdict, now: int)
    requires TablesOk(cr, d)
    requires MayMove(ACCEPTED, v.status) && v.status in REACHABLE
    ensures TablesOk(cr, CommitSubmit(cr, d, req, v, now).0)
  {
    if req.Key() in d.orders && req.Idem() in d.idem {
      CasKeepsTables(cr, d, req, v.status, now);
      var d1 := Cas(cr, d, req, v.status, now);
      RecordKeepsTables(cr, d1, req.Idem(), CommitSubmit(cr, d, req, v, now).1.value);
    }
  }

  lemma AdvanceReversalKeepsTables(cr: Crypto, d: Tables, req: Request, ori: string, s: OrderStatus, now: int)
    requires TablesOk(cr, d)
    requires req.Key() in d.orders
    requires MayMove(ACCEPTED, s) && s in REACHABLE
    ensures TablesOk(cr, AdvanceReversal(cr, d, req, ori, s, now))
  {
    CasKeepsTables(cr, d, req, s, now);
    ReverseOriginalKeepsTables(cr, Cas(cr, d, req, s, now), OrderKey(req.tenant, ori), SyncFinalizer(req, now));
  }

  lemma CommitReversalKeepsTables(cr: Crypto, d: Tables, req: Request, ori: string, v: Verdict, now: int)
    requires TablesOk(cr, d)
    requires MayMove(ACCEPTED, v.status) && v.status in REACHABLE
    ensures TablesOk(cr, CommitReversal(cr, d, req, ori, v, now).0)
  {
    if req.Key() in d.orders && req.Idem() in d.idem {
      var (d', r) := CommitReversal(cr, d, req, ori, v, now);
      var d1 := AdvanceReversal(cr, d, req, ori, v.status, now);
      AdvanceReversalKeepsTables(cr, d, req, ori, v.status, now);
      RecordKeepsTables(cr, d1, req.Idem(), r.value);
      assert d' == RecordResponse(d1, req.Idem(), r.value);
    }
  }

  lemma StatusIsReachable(d: Tables, k: OrderKey)
    requires k in d.orders && OrderOk(d, k)
    ensures d.orders[k].status in REACHABLE && d.orders[k].status in SeqAt(d.trail, k)
  {
    var p := SeqAt(d.trail, k);
    assert p[|p| - 1] in p;
  }

  /** In a good table a settlement does nothing, upgrades SUCCEEDED to REVERSED, or finalizes an
      order that was not final; it is never stopped by the transition table. */
  lemma SettleEffect(cr: Crypto, d: Tables, k: OrderKey, terminal: OrderStatus, f: Finalizer)
    requires k in d.orders ==> OrderOk(d, k)
    requires IsTerminal(terminal)
    ensures var (d', out) := Settle(cr, d, k, terminal, f);
            match out
            case NoOrder => d' == d && k !in d.orders
            case Unchanged => d' == d && k in d.orders && IsTerminal(d.orders[k].status)
            case Upgraded => k in d.orders && d.orders[k].status == SUCCEEDED && terminal == REVERSED &&
                             d' == Enter(cr, d, k, REVERSED, f, Some(SUCCEEDED))
            case Converged => k in d.orders && !IsTerminal(d.orders[k].status) && MayMove(d.orders[k].status, terminal) &&
                              d' == Enter(cr, d, k, terminal, f, None)
            case Illegal => false
  {
    if k in d.orders {
      StatusIsReachable(d, k);
    }
  }

  lemma SettleKeepsTables(cr: Crypto, d: Tables, k: OrderKey, terminal: OrderStatus, f: Finalizer)
    requires TablesOk(cr, d)
    requires IsTerminal(terminal)
    ensures TablesOk(cr, Settle(cr, d, k, terminal, f).0)
  {
    var out := Settle(cr, d, k, terminal, f).1;
    SettleEffect(cr, d, k, terminal, f);
    if out.Upgraded? {
      EnterKeepsTables(cr, d, k, REVERSED, f, Some(SUCCEEDED));
    } else if out.Converged? {
      EnterKeepsTables(cr, d, k, terminal, f, None);
    }
  }

  /** Audit rows written by the rest of the service leave everything but the log alone. */
  lemma OtherAuditKeepsTables(cr: Crypto, d: Tables, c: Content)
    requires TablesOk(cr, d)
    requires !c.action.OrderAction?
    ensures TablesOk(cr, WriteAudit(cr, d, c))
  {
    var d' := WriteAudit(cr, d, c);
    AuditStaysOk(cr, d, c);
    forall k | k in d'.orders ensures OrderOk(d', k) {
      LogGrows(cr, d, c, k);
      assert OrderOk(d, k);
    }
    forall k: OrderKey | k !in d'.orders ensures Logged(d', k) == [] {
      LogGrows(cr, d, c, k);
    }
    SameOutboxOk(d, d');
  }

  /** A dispatcher changes no outbox row's content, so it keeps the tables good. */
  lemma DispatchKeepsTables(cr: Crypto, d: Tables, rows: seq<Outbox.OutRow>)
    requires TablesOk(cr, d)
    requires |rows| == |d.outbox|
    requires forall i :: 0 <= i < |rows| ==>
               rows[i].tenant == d.outbox[i].tenant && rows[i].target == d.outbox[i].target &&
               rows[i].payload == d.outbox[i].payload && rows[i].dedup == d.outbox[i].dedup
    ensures TablesOk(cr, d.(outbox := rows))
  {
    var d' := d.(outbox := rows);
    SameAuditOk(cr, d, d');
    SameOrdersOk(d, d');
    forall i | 0 <= i < |rows| ensures RowOk(d', rows[i]) {
      assert RowOk(d, d.outbox[i]);
    }
    forall i, j | 0 <= i < j < |rows| ensures !SameUniqueKey(rows[i], rows[j]) {
      assert !SameUniqueKey(d.outbox[i], d.outbox[j]);
    }
    forall k: OrderKey, s: OrderStatus | s in SeqAt(d'.trail, k) && IsTerminal(s) ensures Forwarded(d', k, s) {
      assert Forwarded(d, k, s);
      var i :| 0 <= i < |rows| && Outbox.HasKey(d.outbox[i], k.tenant, Outbox.LIFECYCLE, Outbox.DedupKey(k.tenant, k.biz, s));
      assert Outbox.HasKey(rows[i], k.tenant, Outbox.LIFECYCLE, Outbox.DedupKey(k.tenant, k.biz, s));
    }
  }
}
