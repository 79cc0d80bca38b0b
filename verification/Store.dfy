/** The gateway's tables as the service updates them in place, one method a transaction or a piece
    of one, each proved against the function of Ledger or Outbox it stands for. */
module Store {
  import opened Prelude
  import opened States
  import opened WedapReply
  import opened MoneyWrite
  import opened AuditChain
  import opened Ledger
  import Outbox

  /** The rows of one tenant in a log shared by all tenants, in id order. */
  function RowsOf(log: seq<Row>, tenant: string): seq<Row> {
    if log == [] then []
    else
      var last := log[|log| - 1];
      RowsOf(log[..|log| - 1], tenant) + if last.content.tenant == tenant then [last] else []
  }

  lemma RowsOfAppend(log: seq<Row>, r: Row, tenant: string)
    ensures RowsOf(log + [r], tenant) == RowsOf(log, tenant) + if r.content.tenant == tenant then [r] else []
  {
    assert (log + [r])[..|log|] == log;
  }

  function HeadOf(heads: map<string, string>, tenant: string): Option<string> {
    if tenant in heads then Some(heads[tenant]) else None
  }

  /** The two audit tables hold what `d` says of each tenant. */
  ghost predicate AuditMatches(d: Tables, log: seq<Row>, heads: map<string, string>) {
    forall t: string :: AuditOf(d, t) == TenantAudit(RowsOf(log, t), HeadOf(heads, t))
  }

  /** Appending a linked row and moving the head is `write_audit`. */
  lemma AppendMatches(cr: Crypto, d: Tables, log: seq<Row>, heads: map<string, string>, c: Content, row: Row)
    requires AuditMatches(d, log, heads)
    requires row == Link(cr.audit, c, Prev(cr.audit, AuditOf(d, c.tenant)))
    ensures AuditMatches(WriteAudit(cr, d, c), log + [row], heads[c.tenant := row.rowHash])
  {
    var d' := WriteAudit(cr, d, c);
    forall t: string ensures AuditOf(d', t) == TenantAudit(RowsOf(log + [row], t), HeadOf(heads[c.tenant := row.rowHash], t)) {
      RowsOfAppend(log, row, t);
      assert AuditOf(d, t) == TenantAudit(RowsOf(log, t), HeadOf(heads, t));
    }
  }

  class Database {
    const cr: Crypto
    var orders: map<OrderKey, Order>
    var idem: map<IdemKey, IdemRow>
    var auditLog: seq<Row>
    var auditHead: map<string, string>
    var outbox: seq<Outbox.OutRow>

    /** The same tables as Ledger sees them, with the history of every order. */
    ghost var tables: Tables

    ghost predicate Valid()
      reads this
    {
      && tables.orders == orders && tables.idem == idem && tables.outbox == outbox
      && AuditMatches(tables, auditLog, auditHead)
    }

    constructor (cr: Crypto)
      ensures Valid() && this.cr == cr
      ensures tables == Tables(map[], map[], map[], map[], [])
    {
      this.cr := cr;
      orders, idem, auditLog, auditHead, outbox := map[], map[], [], map[], [];
      tables := Tables(map[], map[], map[], map[], []);
    }

    /** The digest of the tenant's newest row, found in the shared log. */
    method HistoryTail(tenant: string) returns (tail: Option<string>)
      ensures var rows := RowsOf(auditLog, tenant);
              tail == if rows == [] then None else Some(rows[|rows| - 1].rowHash)
    {
      var n := |auditLog|;
      assert auditLog[..n] == auditLog;
      while n > 0
        invariant 0 <= n <= |auditLog|
        invariant RowsOf(auditLog, tenant) == RowsOf(auditLog[..n], tenant)
      {
        var row := auditLog[n - 1];
        assert auditLog[..n] == auditLog[..n - 1] + [row];
        RowsOfAppend(auditLog[..n - 1], row, tenant);
        if row.content.tenant == tenant {
          return Some(row.rowHash);
        }
        n := n - 1;
      }
      tail := None;
    }

    /** `write_audit` */
    method WriteAudit(c: Content)
      requires Valid()
      modifies this`auditLog, this`auditHead, this`tables
      ensures Valid()
      ensures tables == Ledger.WriteAudit(cr, old(tables), c)
    {
      if c.tenant !in auditHead {
        var tail := HistoryTail(c.tenant);
        var seed := if tail.Some? && tail.value != "" then tail.value else cr.audit.genesis;
        auditHead := auditHead[c.tenant := seed];
      }
      var prev := auditHead[c.tenant];
      assert prev == Prev(cr.audit, AuditOf(tables, c.tenant));
      hide AuditMatches, RowsOf, Prev;
      var rowHash := cr.audit.apply(Canonical(c, prev));
      auditLog := auditLog + [Row(c, prev, rowHash)];
      auditHead := auditHead[c.tenant := rowHash];
      tables := Ledger.WriteAudit(cr, tables, c);
      AppendMatches(cr, old(tables), old(auditLog), old(auditHead), c, Row(c, prev, rowHash));
      assert auditHead == old(auditHead)[c.tenant := rowHash];
    }

    /** `enqueue_forward` with a key */
    method EnqueueForward(tenant: string, target: string, payload: Outbox.TerminalEvent, dedup: string, trace: string)
      requires Valid()
      modifies this`outbox, this`tables
      ensures Valid()
      ensures tables == old(tables).(outbox := Outbox.Enqueue(old(tables.outbox), tenant, target, payload, dedup, trace))
    {
      var i := 0;
      while i < |outbox|
        invariant 0 <= i <= |outbox|
        invariant forall j :: 0 <= j < i ==> !Outbox.HasKey(outbox[j], tenant, target, dedup)
      {
        if Outbox.HasKey(outbox[i], tenant, target, dedup) {
          return;
        }
        i := i + 1;
      }
      outbox := outbox + [Outbox.FreshRow(tenant, target, payload, dedup, trace)];
      tables := tables.(outbox := outbox);
    }

    /** `finalize_terminal_in_session`, for an order already in its terminal status */
    method FinalizeTerminalInSession(k: OrderKey, f: Finalizer, upgradeFrom: Option<OrderStatus>)
      requires Valid() && k in orders
      modifies this`orders, this`auditLog, this`auditHead, this`outbox, this`tables
      ensures Valid()
      ensures tables == Finalize(cr, old(tables), k, f, upgradeFrom)
    {
      var order := orders[k];
      if order.finalizedAt.Some? && upgradeFrom.None? {
        return;
      }
      if order.finalizedAt.None? {
        order := order.(finalizedAt := Some(f.now));
      }
      order := order.(finalizedVia := Some(f.source));
      orders := orders[k := order];
      tables := tables.(orders := orders);
      WriteAudit(OrderContent(k, f.caller, order.status, FinalizedPayload(f.source, upgradeFrom)));
      EnqueueForward(k.tenant, Outbox.LIFECYCLE, Outbox.TerminalEvent(k.biz, order.action, order.status, f.source),
                     Outbox.DedupKey(k.tenant, k.biz, order.status), f.trace);
    }

    /** `check_or_register` and the insert of the order: when the order row is already there, the
        idempotency row just written is rolled back with the transaction. */
    method RegisterAndAcceptOrder(req: Request) returns (early: Early)
      requires Valid()
      modifies this`orders, this`idem, this`tables
      ensures Valid()
      ensures (tables, early) == Register(cr, old(tables), req)
    {
      var h := cr.fingerprint(req.payload);
      if req.Idem() in idem {
        var row := idem[req.Idem()];
        if row.fingerprint != h {
          return PayloadMismatch;
        }
        match row.response {
          case None => return InFlight(InFlightResponse(req.repayment));
          case Some(r) => return Replay(r);
        }
      }
      var saved := idem;
      idem := idem[req.Idem() := IdemRow(h, None)];
      if req.Key() in orders {
        idem := saved;
        return KeyStateConflict;
      }
      orders := orders[req.Key() := NewOrder(req)];
      tables := tables.(idem := idem, orders := orders, trail := tables.trail[req.Key() := [ACCEPTED]]);
      early := Fresh;
    }

    /** The locked update of a second transaction, when the order is still ACCEPTED. */
    method AdvanceIfAccepted(req: Request, s: OrderStatus, now: int) returns (applied: bool)
      requires Valid() && req.Key() in orders
      modifies this`orders, this`auditLog, this`auditHead, this`outbox, this`tables
      ensures Valid()
      ensures applied <==> old(orders[req.Key()].status) == ACCEPTED
      ensures tables == Cas(cr, old(tables), req, s, now)
    {
      var k := req.Key();
      applied := orders[k].status == ACCEPTED;
      if applied {
        orders := orders[k := orders[k].(status := s)];
        tables := SetStatus(tables, k, s);
        orders := orders[k := orders[k].(submittedAt := Some(now))];
        tables := tables.(orders := orders);
        hide Finalize, Ledger.WriteAudit;
        if IsTerminal(s) {
          FinalizeTerminalInSession(k, SyncFinalizer(req, now), None);
        } else {
          WriteAudit(OrderContent(k, req.caller, s, SubmittedPayload(req.action, req.amount)));
        }
      }
    }

    /** `record_response` */
    method RecordResponse(ik: IdemKey, r: Response)
      requires Valid() && ik in idem
      modifies this`idem, this`tables
      ensures Valid()
      ensures tables == Ledger.RecordResponse(old(tables), ik, r)
    {
      idem := idem[ik := idem[ik].(response := Some(r))];
      tables := tables.(idem := idem);
    }

    /** Transaction 2 of `submit_order`; a missing row raises and nothing is written. */
    method CommitSubmit(req: Request, v: Verdict, now: int) returns (response: Option<Response>)
      requires Valid()
      modifies this`orders, this`idem, this`auditLog, this`auditHead, this`outbox, this`tables
      ensures Valid()
      ensures (tables, response) == Ledger.CommitSubmit(cr, old(tables), req, v, now)
    {
      if req.Key() !in orders || req.Idem() !in idem {
        return None;
      }
      hide Cas;
      var casApplied := AdvanceIfAccepted(req, v.status, now);
      var r := FinalResponse(v, orders[req.Key()].status, casApplied, req.repayment);
      RecordResponse(req.Idem(), r);
      response := Some(r);
    }

    /** `_reverse_original` */
    method ReverseOriginal(k: OrderKey, f: Finalizer)
      requires Valid()
      modifies this`orders, this`auditLog, this`auditHead, this`outbox, this`tables
      ensures Valid()
      ensures tables == Ledger.ReverseOriginal(cr, old(tables), k, f)
    {
      if k !in orders || orders[k].status == REVERSED || !MayMove(orders[k].status, REVERSED) {
        return;
      }
      var upgradeFrom := orders[k].status;
      EnterTerminal(k, REVERSED, f, Some(upgradeFrom));
    }

    /** Assign a terminal status to a locked order and finalize it. */
    method EnterTerminal(k: OrderKey, s: OrderStatus, f: Finalizer, upgradeFrom: Option<OrderStatus>)
      requires Valid() && k in orders
      modifies this`orders, this`auditLog, this`auditHead, this`outbox, this`tables
      ensures Valid()
      ensures tables == Enter(cr, old(tables), k, s, f, upgradeFrom)
    {
      orders := orders[k := orders[k].(status := s)];
      tables := SetStatus(tables, k, s);
      FinalizeTerminalInSession(k, f, upgradeFrom);
    }

    /** Transaction 2 of `submit_reversal` */
    method CommitReversal(req: Request, ori: string, v: Verdict, now: int) returns (response: Option<Response>)
      requires Valid()
      modifies this`orders, this`idem, this`auditLog, this`auditHead, this`outbox, this`tables
      ensures Valid()
      ensures (tables, response) == Ledger.CommitReversal(cr, old(tables), req, ori, v, now)
    {
      if req.Key() !in orders || req.Idem() !in idem {
        return None;
      }
      hide Cas, Ledger.ReverseOriginal;
      var casApplied := AdvanceIfAccepted(req, v.status, now);
      if casApplied && v.status == SUCCEEDED {
        ReverseOriginal(OrderKey(req.tenant, ori), SyncFinalizer(req, now));
      }
      var r := FinalResponse(v, orders[req.Key()].status, casApplied, false);
      RecordResponse(req.Idem(), r);
      response := Some(r);
    }

    /** The locked transaction of `resolve_callback_terminal` and of `resolve_terminal_via_status_query`. */
    method Settle(k: OrderKey, terminal: OrderStatus, f: Finalizer) returns (out: Settled)
      requires Valid()
      modifies this`orders, this`auditLog, this`auditHead, this`outbox, this`tables
      ensures Valid()
      ensures (tables, out) == Ledger.Settle(cr, old(tables), k, terminal, f)
    {
      if k !in orders {
        return NoOrder;
      }
      var locked := orders[k];
      hide Enter;
      if locked.finalizedAt.Some? || IsAbsorbing(locked.status) {
        if locked.status == SUCCEEDED && terminal == REVERSED {
          EnterTerminal(k, terminal, f, Some(SUCCEEDED));
          return Upgraded;
        }
        return Unchanged;
      }
      if !MayMove(locked.status, terminal) {
        return Illegal;
      }
      EnterTerminal(k, terminal, f, None);
      out := Converged;
    }
  }
}
