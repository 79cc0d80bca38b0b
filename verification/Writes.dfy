/** What each transaction writes and answers, column by column, in the words of the tables. */
module Writes {
  import opened Prelude
  import opened States
  import opened WedapReply
  import opened MoneyWrite
  import opened AuditChain
  import opened Ledger
  import Outbox

  // ---- registration -------------------------------------------------------------------------

  /** The transType of a request is kept if it reads as a nonempty text. */
  predicate TypeRead(f: Field, t: Option<string>) {
    match t
    case Some(s) => s != "" && (f == Text(s) || (f.Other? && f.truthy && f.text == s))
    case None => f in {Missing, Null, Text("")} || (f.Other? && (f.truthy ==> f.text == ""))
  }

  /** Transaction 1, all five ways it can end. A key with another payload is refused; one with this payload
      is given its recorded response, or told that it is pending; an order without its key is a conflict;
      and anything else is a new ACCEPTED order with the columns of the request. Only the last writes. */
  lemma RegisterReads(cr: Crypto, d: Tables, req: Request)
    ensures var (d', early) := Register(cr, d, req);
            var ik, k := IdemKey(req.tenant, req.scope, req.biz), OrderKey(req.tenant, req.biz);
            if ik in d.idem then
              && d' == d
              && if d.idem[ik].fingerprint != cr.fingerprint(req.payload) then early == PayloadMismatch
                 else match d.idem[ik].response
                      case Some(r) => early == Replay(r)
                      case None => early.InFlight? && TellsPending(early.response, req.repayment)
            else if k in d.orders then d' == d && early == KeyStateConflict
            else
              && early == Fresh && k in d'.orders
              && TypeRead(req.transType, d'.orders[k].transType)
              && d'.orders[k] == Order(ACCEPTED, req.action, req.amount, d'.orders[k].transType, req.oriReqDate, None, None, None)
              && d' == d.(idem := d.idem[ik := IdemRow(cr.fingerprint(req.payload), None)],
                          orders := d.orders[k := d'.orders[k]], trail := d.trail[k := [ACCEPTED]])
  {
    InFlightReads(req.repayment);
    hide InFlightResponse, TellsPending;
  }

  // ---- entering a terminal status -----------------------------------------------------------

  /** One order row, one audit row and these outbox rows, and nothing else but idempotency rows. */
  ghost predicate Wrote(d: Tables, d': Tables, k: OrderKey, o: Order, c: Content, rows: seq<Outbox.OutRow>) {
    && d'.orders == d.orders[k := o]
    && AuditGrew(d, d', c)
    && d'.outbox == d.outbox + rows
  }

  ghost predicate AuditGrew(d: Tables, d': Tables, c: Content) {
    && (forall t: string :: t != c.tenant ==> AuditOf(d', t) == AuditOf(d, t))
    && var log, log' := AuditOf(d, c.tenant).log, AuditOf(d', c.tenant).log;
       |log'| == |log| + 1 && log'[..|log|] == log && log'[|log|].content == c
  }

  lemma WriteAuditGrows(cr: Crypto, d: Tables, c: Content)
    ensures AuditGrew(d, WriteAudit(cr, d, c), c)
  {
  }

  function TerminalText(s: OrderStatus): string {
    if s == SUCCEEDED then "SUCCEEDED" else if s == FAILED then "FAILED" else "REVERSED"
  }

  /** The row that forwards an order's terminal status to the lifecycle service. */
  function Forwarding(k: OrderKey, action: string, s: OrderStatus, via: Source, trace: string): Outbox.OutRow {
    Outbox.OutRow(k.tenant, "lifecycle", Outbox.TerminalEvent(k.biz, action, s, via),
                  "fwd-" + k.tenant + "-" + k.biz + "-" + TerminalText(s), trace, Outbox.PENDING, 0, None, None, None, None)
  }

  function Finalization(k: OrderKey, caller: string, s: OrderStatus, via: Source, upgradedFrom: Option<OrderStatus>): Content {
    Content(k.tenant, "svc:" + caller, OrderAction(s), OrderEntity(k.biz), FinalizedPayload(via, upgradedFrom))
  }

  lemma ForwardingIs(k: OrderKey, action: string, s: OrderStatus, via: Source, trace: string)
    requires IsTerminal(s)
    ensures Outbox.FreshRow(k.tenant, Outbox.LIFECYCLE, Outbox.TerminalEvent(k.biz, action, s, via),
                            Outbox.DedupKey(k.tenant, k.biz, s), trace) == Forwarding(k, action, s, via, trace)
  {
  }

  lemma AuditGrowsBy(cr: Crypto, d: Tables, d': Tables, c: Content)
    requires d'.audit == WriteAudit(cr, d, c).audit
    ensures AuditGrew(d, d', c)
  {
    WriteAuditGrows(cr, d, c);
    assert forall t: string :: AuditOf(d', t) == AuditOf(WriteAudit(cr, d, c), t);
  }

  lemma NothingForwarded(cr: Crypto, d: Tables, k: OrderKey, s: OrderStatus, up: Option<OrderStatus>)
    requires TablesOk(cr, d) && k in d.orders
    requires MayMove(d.orders[k].status, s) && IsTerminal(s)
    requires up.None? ==> !IsTerminal(d.orders[k].status)
    ensures !Forwarded(d, k, s) && (up.None? ==> d.orders[k].finalizedAt.None?)
  {
    assert OrderOk(d, k);
    PathExtends(SeqAt(d.trail, k), s);
    NewStatusHasNoRow(d, k, s);
  }

  lemma EnterWritesRow(cr: Crypto, d: Tables, k: OrderKey, s: OrderStatus, f: Finalizer, up: Option<OrderStatus>)
    requires k in d.orders && !Forwarded(d, k, s) && (up.None? ==> d.orders[k].finalizedAt.None?)
    ensures var o := d.orders[k];
            Wrote(d, Enter(cr, d, k, s, f, up), k,
                  o.(status := s, finalizedAt := if o.finalizedAt == None then Some(f.now) else o.finalizedAt, finalizedVia := Some(f.source)),
                  Finalization(k, f.caller, s, f.source, up),
                  [Outbox.FreshRow(k.tenant, Outbox.LIFECYCLE, Outbox.TerminalEvent(k.biz, o.action, s, f.source),
                                   Outbox.DedupKey(k.tenant, k.biz, s), f.trace)])
  {
    var d' := Enter(cr, d, k, s, f, up);
    var c := OrderContent(k, f.caller, s, FinalizedPayload(f.source, up));
    EnterMoves(cr, d, k, s, f, up);
    AuditGrowsBy(cr, d, d', c);
    hide WriteAudit, AuditGrew, Enter, Outbox.FreshRow, Outbox.DedupKey;
  }

  /** Entering a terminal status, whoever does it: the first finalization time is kept, the source becomes
      this one, one audit row names the caller, the source and what was upgraded, and one new outbox row
      forwards the status with the order's action. */
  lemma EnterWrites(cr: Crypto, d: Tables, k: OrderKey, s: OrderStatus, f: Finalizer, up: Option<OrderStatus>)
    requires TablesOk(cr, d) && k in d.orders
    requires MayMove(d.orders[k].status, s) && IsTerminal(s)
    requires up.None? ==> !IsTerminal(d.orders[k].status)
    ensures var o := d.orders[k];
            Wrote(d, Enter(cr, d, k, s, f, up), k,
                  o.(status := s, finalizedAt := if o.finalizedAt == None then Some(f.now) else o.finalizedAt, finalizedVia := Some(f.source)),
                  Finalization(k, f.caller, s, f.source, up),
                  [Forwarding(k, o.action, s, f.source, f.trace)])
  {
    NothingForwarded(cr, d, k, s, up);
    hide TablesOk, MayMove, IsTerminal;
    EnterWritesRow(cr, d, k, s, f, up);
    ForwardingIs(k, d.orders[k].action, s, f.source, f.trace);
    hide Enter, AuditGrew;
  }

  // ---- second transactions ------------------------------------------------------------------

  predicate SameButIdem(d: Tables, d': Tables) {
    d'.orders == d.orders && d'.audit == d.audit && d'.outbox == d.outbox
  }

  function Submission(k: OrderKey, caller: string, s: OrderStatus, action: string, amount: string): Content {
    Content(k.tenant, "svc:" + caller, OrderAction(s), OrderEntity(k.biz), SubmittedPayload(action, amount))
  }

  /** What becomes of the order of a committing request: if it is still ACCEPTED it takes the status `s` and
      the time, and is finalized under the request's caller and id if that is terminal; otherwise nothing
      is written. */
  ghost predicate CasWrote(d: Tables, d': Tables, req: Request, s: OrderStatus, now: int)
    requires OrderKey(req.tenant, req.biz) in d.orders
  {
    var k := OrderKey(req.tenant, req.biz);
    var o := d.orders[k];
    if o.status != ACCEPTED then SameButIdem(d, d')
    else if s == SUCCEEDED || s == FAILED || s == REVERSED then
      Wrote(d, d', k, o.(status := s, submittedAt := Some(now), finalizedAt := Some(now), finalizedVia := Some(SYNC)),
            Finalization(k, req.caller, s, SYNC, None), [Forwarding(k, o.action, s, SYNC, req.requestId)])
    else
      Wrote(d, d', k, o.(status := s, submittedAt := Some(now)), Submission(k, req.caller, s, req.action, req.amount), [])
  }

  lemma CasOpenWrites(cr: Crypto, d: Tables, req: Request, s: OrderStatus, now: int)
    requires req.Key() in d.orders && d.orders[req.Key()].status == ACCEPTED && d.orders[req.Key()].finalizedAt.None?
    requires !IsTerminal(s)
    ensures CasWrote(d, Cas(cr, d, req, s, now), req, s, now)
  {
    var k, d' := req.Key(), Cas(cr, d, req, s, now);
    AuditGrowsBy(cr, d, d', OrderContent(k, req.caller, s, SubmittedPayload(req.action, req.amount)));
    assert d'.orders == d.orders[k := d.orders[k].(status := s, submittedAt := Some(now))];
    hide WriteAudit, AuditGrew;
  }

  lemma CasIsEnter(cr: Crypto, d: Tables, req: Request, s: OrderStatus, now: int)
    requires req.Key() in d.orders && d.orders[req.Key()].status == ACCEPTED && IsTerminal(s)
    ensures var k := req.Key();
            var d0 := d.(orders := d.orders[k := d.orders[k].(submittedAt := Some(now))]);
            Cas(cr, d, req, s, now) == Enter(cr, d0, k, s, SyncFinalizer(req, now), None)
  {
    var k := req.Key();
    var d0 := d.(orders := d.orders[k := d.orders[k].(submittedAt := Some(now))]);
    var d1 := SetStatus(d, k, s);
    assert d1.(orders := d1.orders[k := d1.orders[k].(submittedAt := Some(now))]) == SetStatus(d0, k, s);
    hide Finalize;
  }

  lemma CasTerminalWrites(cr: Crypto, d: Tables, req: Request, s: OrderStatus, now: int)
    requires TablesOk(cr, d) && req.Key() in d.orders && d.orders[req.Key()].status == ACCEPTED
    requires MayMove(ACCEPTED, s) && IsTerminal(s)
    ensures CasWrote(d, Cas(cr, d, req, s, now), req, s, now)
  {
    var k := req.Key();
    var d0 := d.(orders := d.orders[k := d.orders[k].(submittedAt := Some(now))]);
    NothingForwarded(cr, d, k, s, None);
    CasIsEnter(cr, d, req, s, now);
    NothingForwardedEither(d, d0, k, s);
    hide Cas, Enter, TablesOk, Forwarded;
    EnterWritesRow(cr, d0, k, s, SyncFinalizer(req, now), None);
    ForwardingIs(k, d.orders[k].action, s, SYNC, req.requestId);
    hide Wrote, CasWrote;
    Rebased(d, d0, Cas(cr, d, req, s, now), req, s, now);
  }

  lemma NothingForwardedEither(d: Tables, d0: Tables, k: OrderKey, s: OrderStatus)
    requires !Forwarded(d, k, s) && d0.outbox == d.outbox
    ensures !Forwarded(d0, k, s)
  {
  }

  lemma Rebased(d: Tables, d0: Tables, d': Tables, req: Request, s: OrderStatus, now: int)
    requires req.Key() in d.orders && d.orders[req.Key()].status == ACCEPTED && d.orders[req.Key()].finalizedAt.None?
    requires s in {SUCCEEDED, FAILED, REVERSED}
    requires d0 == d.(orders := d.orders[req.Key() := d.orders[req.Key()].(submittedAt := Some(now))])
    requires var k, o := req.Key(), d0.orders[req.Key()];
             Wrote(d0, d', k, o.(status := s, finalizedAt := Some(now), finalizedVia := Some(SYNC)),
                   Finalization(k, req.caller, s, SYNC, None), [Forwarding(k, o.action, s, SYNC, req.requestId)])
    ensures CasWrote(d, d', req, s, now)
  {
    assert forall t: string :: AuditOf(d0, t) == AuditOf(d, t);
    UpdateTwice(d.orders, req.Key(), d0.orders[req.Key()], d'.orders[req.Key()]);
    hide Finalization, Forwarding;
  }

  lemma CasWrites(cr: Crypto, d: Tables, req: Request, s: OrderStatus, now: int)
    requires TablesOk(cr, d) && req.Key() in d.orders && MayMove(ACCEPTED, s)
    ensures CasWrote(d, Cas(cr, d, req, s, now), req, s, now)
  {
    assert OrderOk(d, req.Key());
    if d.orders[req.Key()].status == ACCEPTED {
      if IsTerminal(s) {
        CasTerminalWrites(cr, d, req, s, now);
      } else {
        CasOpenWrites(cr, d, req, s, now);
      }
    }
    hide TablesOk, Wrote;
  }

  /** Transaction 2 of a submit: its order as above, and its reply under its own key. */
  lemma SubmitWrites(cr: Crypto, d: Tables, req: Request, v: Verdict, now: int)
    requires TablesOk(cr, d) && req.Key() in d.orders && req.Idem() in d.idem && MayMove(ACCEPTED, v.status)
    ensures var (d', reply) := CommitSubmit(cr, d, req, v, now);
            var ik := IdemKey(req.tenant, req.scope, req.biz);
            && reply.Some?
            && d'.idem == d.idem[ik := IdemRow(d.idem[ik].fingerprint, reply)]
            && CasWrote(d, d', req, v.status, now)
  {
    CasWrites(cr, d, req, v.status, now);
    hide Cas, TablesOk, FinalResponse;
    assert CasWrote(d, CommitSubmit(cr, d, req, v, now).0, req, v.status, now) by {
      SameTablesWrote(d, Cas(cr, d, req, v.status, now), CommitSubmit(cr, d, req, v, now).0, req, v.status, now);
    }
  }

  lemma SameTablesWrote(d: Tables, d1: Tables, d': Tables, req: Request, s: OrderStatus, now: int)
    requires req.Key() in d.orders && CasWrote(d, d1, req, s, now) && SameButIdem(d1, d')
    ensures CasWrote(d, d', req, s, now)
  {
    assert forall t: string :: AuditOf(d', t) == AuditOf(d1, t);
  }

  /** What becomes of the original of a reversal that has just SUCCEEDED: it is REVERSED if it exists and the
      table allows it. */
  ghost predicate FlipWrote(d: Tables, d': Tables, req: Request, ori: string, now: int) {
    var j := OrderKey(req.tenant, ori);
    if j in d.orders && MayMove(d.orders[j].status, REVERSED) then
      var o := d.orders[j];
      Wrote(d, d', j,
            o.(status := REVERSED, finalizedAt := if o.finalizedAt == None then Some(now) else o.finalizedAt, finalizedVia := Some(SYNC)),
            Finalization(j, req.caller, REVERSED, SYNC, Some(o.status)), [Forwarding(j, o.action, REVERSED, SYNC, req.requestId)])
    else SameButIdem(d, d')
  }

  /** Transaction 2 of a reversal: its order as above; then, if that took SUCCEEDED just now, its original is
      REVERSED, if it exists and the table allows that; and its reply under its own key. */
  lemma ReversalWrites(cr: Crypto, d: Tables, req: Request, ori: string, v: Verdict, now: int) returns (d1: Tables)
    requires TablesOk(cr, d) && req.Key() in d.orders && req.Idem() in d.idem
    requires v.status in {SUCCEEDED, FAILED, RESULT_UNKNOWN}
    ensures var (d', reply) := CommitReversal(cr, d, req, ori, v, now);
            var ik := IdemKey(req.tenant, req.scope, req.biz);
            && reply.Some?
            && d'.idem == d.idem[ik := IdemRow(d.idem[ik].fingerprint, reply)]
            && CasWrote(d, d1, req, v.status, now)
            && if d.orders[req.Key()].status == ACCEPTED && v.status == SUCCEEDED then FlipWrote(d1, d', req, ori, now)
               else SameButIdem(d1, d')
  {
    d1 := Cas(cr, d, req, v.status, now);
    CasWrites(cr, d, req, v.status, now);
    CasKeepsTables(cr, d, req, v.status, now);
    var j := OrderKey(req.tenant, ori);
    if d.orders[req.Key()].status == ACCEPTED && v.status == SUCCEEDED && j in d1.orders && MayMove(d1.orders[j].status, REVERSED) {
      EnterWrites(cr, d1, j, REVERSED, SyncFinalizer(req, now), Some(d1.orders[j].status));
    }
    hide Cas, Enter, TablesOk, FinalResponse, CasWrote, MayMove;
    RecordLeaves(cr, d, req, ori, v, now);
    hide CommitReversal, AdvanceReversal;
  }

  lemma RecordLeaves(cr: Crypto, d: Tables, req: Request, ori: string, v: Verdict, now: int)
    requires req.Key() in d.orders && req.Idem() in d.idem
    ensures var (d', reply) := CommitReversal(cr, d, req, ori, v, now);
            && reply.Some? && d'.idem == d.idem[req.Idem() := IdemRow(d.idem[req.Idem()].fingerprint, reply)]
            && SameButIdem(AdvanceReversal(cr, d, req, ori, v.status, now), d')
            && forall t: string :: AuditOf(d', t) == AuditOf(AdvanceReversal(cr, d, req, ori, v.status, now), t)
  {
    hide AdvanceReversal, FinalResponse;
  }

  // ---- settlements --------------------------------------------------------------------------

  /** A reported terminal status: an order not final yet takes it; SUCCEEDED is only left for REVERSED, keeping
      its first finalization time; a final order takes nothing else; and an unknown one nothing at all. */
  lemma SettleWrites(cr: Crypto, d: Tables, k: OrderKey, terminal: OrderStatus, f: Finalizer)
    requires TablesOk(cr, d) && terminal in {SUCCEEDED, FAILED, REVERSED}
    ensures var (d', out) := Settle(cr, d, k, terminal, f);
            if k !in d.orders then d' == d && out == NoOrder
            else
              var o := d.orders[k];
              if o.status == SUCCEEDED && terminal == REVERSED then
                && out == Upgraded
                && Wrote(d, d', k, o.(status := REVERSED, finalizedVia := Some(f.source)),
                         Finalization(k, f.caller, REVERSED, f.source, Some(SUCCEEDED)),
                         [Forwarding(k, o.action, REVERSED, f.source, f.trace)])
              else if o.status in {SUCCEEDED, FAILED, REVERSED} then d' == d && out == Unchanged
              else
                && out == Converged
                && Wrote(d, d', k, o.(status := terminal, finalizedAt := Some(f.now), finalizedVia := Some(f.source)),
                         Finalization(k, f.caller, terminal, f.source, None),
                         [Forwarding(k, o.action, terminal, f.source, f.trace)])
  {
    SettleEffect(cr, d, k, terminal, f);
    if k in d.orders {
      assert OrderOk(d, k);
      StatusIsReachable(d, k);
      var out := Settle(cr, d, k, terminal, f).1;
      if out.Upgraded? {
        EnterWrites(cr, d, k, REVERSED, f, Some(SUCCEEDED));
      } else if out.Converged? {
        EnterWrites(cr, d, k, terminal, f, None);
      }
    }
    hide TablesOk, Enter, Wrote, Finalization, Forwarding;
  }
}
