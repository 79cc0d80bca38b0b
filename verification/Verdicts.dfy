/** Every transaction, seen from the orders, feeds one verdict to one order at a time. */
module Verdicts {
  import opened Prelude
  import opened States
  import opened AuditChain
  import opened Ledger
  import opened Confluence
  import Outbox

  /** What no transaction ever takes back. */
  ghost predicate OrderEvolves(d: Tables, d': Tables, j: OrderKey) {
    j in d.orders ==>
      && j in d'.orders
      && d'.orders[j].transType == d.orders[j].transType
      && d'.orders[j].action == d.orders[j].action
      && (d.orders[j].finalizedAt.Some? ==> d'.orders[j].finalizedAt == d.orders[j].finalizedAt)
      && SeqAt(d.trail, j) <= SeqAt(d'.trail, j)
      && (IsTerminal(d.orders[j].status) ==> IsTerminal(d'.orders[j].status))
      && (d.orders[j].status in {FAILED, REVERSED} ==> d'.orders[j].status == d.orders[j].status)
  }

  /** The outbox is unchanged or has one more fresh row. */
  predicate OutboxGrew(d: Tables, d': Tables) {
    || d'.outbox == d.outbox
    || (|d'.outbox| == |d.outbox| + 1 && d'.outbox == d.outbox + [d'.outbox[|d.outbox|]] &&
        Outbox.CellOf(d'.outbox[|d.outbox|]) == Outbox.Cell(Outbox.PENDING, 0, None))
  }

  /** No tenant's audit log loses or changes a row. */
  ghost predicate LogsGrew(d: Tables, d': Tables) {
    forall t: string :: AuditOf(d, t).log <= AuditOf(d', t).log
  }

  lemma WriteAuditGrows(cr: Crypto, d: Tables, d': Tables, c: Content)
    requires d'.audit == WriteAudit(cr, d, c).audit
    ensures LogsGrew(d, d')
  {
  }

  /** Order `k` is fed `f` and nothing else about any order changes. */
  ghost predicate Fed(d: Tables, d': Tables, k: OrderKey, f: Feed) {
    && k in d.orders
    && d'.orders.Keys == d.orders.Keys
    && d'.idem == d.idem
    && OutboxGrew(d, d')
    && LogsGrew(d, d')
    && OrderEvolves(d, d', k)
    && d'.orders[k].status == Apply(d.orders[k].status, f)
    && (d'.trail == if d'.orders[k].status == d.orders[k].status then d.trail
                    else d.trail[k := SeqAt(d.trail, k) + [d'.orders[k].status]])
    && d'.orders == d.orders[k := d'.orders[k]]
  }

  lemma MoveEvolves(cr: Crypto, d: Tables, d': Tables, k: OrderKey, s: OrderStatus, c: Content)
    requires Moves(cr, d, d', k, s, c)
    requires OrderOk(d, k)
    requires MayMove(d.orders[k].status, s) && s in REACHABLE
    requires d.orders[k].finalizedAt.Some? ==> d'.orders[k].finalizedAt == d.orders[k].finalizedAt
    ensures OrderEvolves(d, d', k)
  {
    StatusIsReachable(d, k);
  }

  lemma EnterFeeds(cr: Crypto, d: Tables, k: OrderKey, s: OrderStatus, f: Finalizer, up: Option<OrderStatus>, feed: Feed)
    requires k in d.orders && OrderOk(d, k)
    requires MayMove(d.orders[k].status, s) && IsTerminal(s)
    requires up.None? ==> !IsTerminal(d.orders[k].status)
    requires Apply(d.orders[k].status, feed) == s
    ensures Fed(d, Enter(cr, d, k, s, f, up), k, feed)
  {
    EnterMoves(cr, d, k, s, f, up);
    MovedFeeds(cr, d, Enter(cr, d, k, s, f, up), k, s, OrderContent(k, f.caller, s, FinalizedPayload(f.source, up)), feed);
  }

  lemma CasFeeds(cr: Crypto, d: Tables, req: Request, s: OrderStatus, now: int)
    requires req.Key() in d.orders && OrderOk(d, req.Key())
    requires MayMove(ACCEPTED, s) && s in REACHABLE
    ensures Fed(d, Cas(cr, d, req, s, now), req.Key(), Sync(s))
  {
    var k, d' := req.Key(), Cas(cr, d, req, s, now);
    if d.orders[k].status == ACCEPTED {
      CasMoves(cr, d, req, s, now);
      if IsTerminal(s) {
        MovedFeeds(cr, d, d', k, s, OrderContent(k, req.caller, s, FinalizedPayload(SYNC, None)), Sync(s));
      } else {
        MovedFeeds(cr, d, d', k, s, OrderContent(k, req.caller, s, SubmittedPayload(req.action, req.amount)), Sync(s));
      }
    }
  }

  lemma MovedFeeds(cr: Crypto, d: Tables, d': Tables, k: OrderKey, s: OrderStatus, c: Content, f: Feed)
    requires Moves(cr, d, d', k, s, c)
    requires OrderOk(d, k)
    requires MayMove(d.orders[k].status, s) && s in REACHABLE && Apply(d.orders[k].status, f) == s
    requires d.orders[k].finalizedAt.Some? ==> d'.orders[k].finalizedAt == d.orders[k].finalizedAt
    requires OutboxGrew(d, d')
    ensures Fed(d, d', k, f)
  {
    WriteAuditGrows(cr, d, d', c);
    hide LogsGrew;
    MoveEvolves(cr, d, d', k, s, c);
    StatusIsReachable(d, k);
    assert s != d.orders[k].status;
  }

  lemma ReverseOriginalFeeds(cr: Crypto, d: Tables, k: OrderKey, f: Finalizer)
    requires k in d.orders && OrderOk(d, k)
    ensures Fed(d, ReverseOriginal(cr, d, k, f), k, Flip)
  {
    if MayMove(d.orders[k].status, REVERSED) {
      EnterFeeds(cr, d, k, REVERSED, f, Some(d.orders[k].status), Flip);
    }
  }

  lemma SettleFeeds(cr: Crypto, d: Tables, k: OrderKey, terminal: OrderStatus, f: Finalizer)
    requires k in d.orders && OrderOk(d, k)
    requires IsTerminal(terminal)
    ensures Fed(d, Settle(cr, d, k, terminal, f).0, k, Report(terminal))
  {
    var (d', out) := Settle(cr, d, k, terminal, f);
    SettleEffect(cr, d, k, terminal, f);
    if out.Upgraded? {
      EnterFeeds(cr, d, k, REVERSED, f, Some(SUCCEEDED), Report(terminal));
    } else if out.Converged? {
      StatusIsReachable(d, k);
      EnterFeeds(cr, d, k, terminal, f, None, Report(terminal));
    }
  }

  lemma EvolvesTrans(d: Tables, d1: Tables, d': Tables, j: OrderKey)
    requires OrderEvolves(d, d1, j) && OrderEvolves(d1, d', j)
    ensures OrderEvolves(d, d', j)
  {
  }

  /** No order, no history and no log loses anything. */
  ghost predicate Evolves(d: Tables, d': Tables) {
    LogsGrew(d, d') && forall j: OrderKey :: OrderEvolves(d, d', j)
  }

  lemma TablesEvolveRefl(d: Tables)
    ensures Evolves(d, d)
  {
  }

  lemma TablesEvolveTrans(d: Tables, d1: Tables, d': Tables)
    requires Evolves(d, d1) && Evolves(d1, d')
    ensures Evolves(d, d')
  {
    forall j: OrderKey ensures OrderEvolves(d, d', j) {
      EvolvesTrans(d, d1, d', j);
    }
    forall t: string ensures AuditOf(d, t).log <= AuditOf(d', t).log {
      assert AuditOf(d, t).log <= AuditOf(d1, t).log <= AuditOf(d', t).log;
    }
  }

  lemma FedEvolves(d: Tables, d': Tables, k: OrderKey, f: Feed, j: OrderKey)
    requires Fed(d, d', k, f)
    ensures OrderEvolves(d, d', j)
  {
  }
}
