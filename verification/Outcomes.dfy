/** What callers are told and what the tables hold afterwards, operation by operation, from the requests
    and the answers of wedap as they come in. */
module Outcomes {
  import opened Prelude
  import opened States
  import opened WedapReply
  import opened MoneyWrite
  import opened AuditChain
  import opened Ledger
  import opened Writes
  import opened Protocol
  import opened ProtocolInv
  import opened ProtocolSteps
  import opened Guarantees
  import opened Service
  import Outbox

  // ---- requests -----------------------------------------------------------------------------

  /** A usable order number: 1 to 32 ASCII letters, digits, underscores and hyphens. */
  predicate Usable(biz: string) {
    && 1 <= |biz| <= 32
    && forall i :: 0 <= i < |biz| ==>
         var c := biz[i] as int; 48 <= c <= 57 || 65 <= c <= 90 || 97 <= c <= 122 || c == 95 || c == 45
  }

  /** A request with any other number starts nothing. */
  lemma UnusableRefused(g: Config, w: World, pid: nat, req: Request, kind: Kind)
    ensures ValidBiz(req.biz) <==> Usable(req.biz)
    ensures !Usable(req.biz) ==> Step(g, w, Start(pid, req, kind)) == w
  {
    hide Register;
  }

  /** A submit that commits, in any reachable world, after wedap answered `r`: its order takes the status of
      that answer if it is still ACCEPTED; the reply tells that answer, field by field, and the status the
      order has then; it is what the process's retries will be given; and nothing else is written. */
  lemma SubmitOutcome(g: Config, w: World, pid: nat, now: int, r: HttpResponse)
    requires Reachable(g, w)
    requires pid in w.procs && w.procs[pid].HasReply? && w.procs[pid].kind.Plain? && w.procs[pid].call == Unwrap(r)
    ensures var req := w.procs[pid].req;
            var k, ik := OrderKey(req.tenant, req.biz), IdemKey(req.tenant, req.scope, req.biz);
            var d, d' := w.db, Step(g, w, Commit(pid, now)).db;
            && k in d.orders && k in d'.orders && ik in d.idem && ik in d'.idem
            && CasWrote(d, d', req, StatusBy(r, req.repayment), now)
            && d'.idem[ik].response.Some? && d'.idem == d.idem[ik := IdemRow(d.idem[ik].fingerprint, d'.idem[ik].response)]
            && var reply := d'.idem[ik].response.value;
               && !reply.inFlight && reply.orderStatus == Some(d'.orders[k].status)
               && SubmitTells(reply, r, req.repayment)
               && TypedFor(reply.typed, d'.orders[k].status, ShowsNoEffect(r, req.repayment), UnderWay(r, req.repayment), req.repayment)
  {
    var q := w.procs[pid];
    var req := q.req;
    FreshSubmitResponse(g, w, pid, now);
    var v := ClassifySubmit(q.call, req.repayment).value;
    ReachableOk(g, w);
    TablesAreOk(g, w);
    ProcIsOk(g, w, pid);
    VerdictsAreLegal(q.call, req.repayment);
    StatusByResponse(r, req.repayment);
    SubmitWrites(g.cr, w.db, req, v, now);
    CommitReports(g.cr, w.db, req, v, now);
    CommitIsStep(g, w, pid, now);
    var after := CommitSubmit(g.cr, w.db, req, v, now).0.orders[req.Key()].status;
    hide CommitSubmit, ClassifySubmit, Unwrap, WorldOk, FinalResponse, Reachable, CasWrote, TablesOk, Step;
    SubmitReply(r, req.repayment, after, w.db.orders[req.Key()].status == ACCEPTED);
    hide SubmitTells, TypedFor, ShowsNoEffect, UnderWay, StatusBy;
  }

  lemma CommitIsStep(g: Config, w: World, pid: nat, now: int)
    requires pid in w.procs && w.procs[pid].HasReply? && w.procs[pid].kind.Plain?
    requires ClassifySubmit(w.procs[pid].call, w.procs[pid].req.repayment).Some?
    ensures var q := w.procs[pid];
            Step(g, w, Commit(pid, now)).db ==
            CommitSubmit(g.cr, w.db, q.req, ClassifySubmit(q.call, q.req.repayment).value, now).0
  {
    hide CommitSubmit, ClassifySubmit;
  }

  /** The status a reversal that finds its own order still ACCEPTED leaves it in. */
  function ReversalStatusBy(r: HttpResponse): OrderStatus {
    if Acknowledged(r).Some? then SUCCEEDED else if r.statusCode >= 500 then RESULT_UNKNOWN else FAILED
  }

  lemma ReversalStatusByResponse(r: HttpResponse)
    requires ClassifyReversal(Unwrap(r)).Some?
    ensures ClassifyReversal(Unwrap(r)).value.status == ReversalStatusBy(r)
  {
  }

  /** The same for a reversal: its own order goes by the answer, and is the only one written unless it took
      SUCCEEDED just now; then the original is REVERSED if the table allows it. `d1` is in between. */
  lemma ReversalOutcome(g: Config, w: World, pid: nat, now: int, r: HttpResponse) returns (d1: Tables)
    requires Reachable(g, w)
    requires pid in w.procs && w.procs[pid].HasReply? && w.procs[pid].kind.ReversalOf? && w.procs[pid].call == Unwrap(r)
    ensures var req := w.procs[pid].req;
            var k, ik := OrderKey(req.tenant, req.biz), IdemKey(req.tenant, req.scope, req.biz);
            var d, d' := w.db, Step(g, w, Commit(pid, now)).db;
            && k in d.orders && k in d'.orders && ik in d.idem && ik in d'.idem
            && CasWrote(d, d1, req, ReversalStatusBy(r), now)
            && (if d.orders[k].status == ACCEPTED && Acknowledged(r).Some? then FlipWrote(d1, d', req, w.procs[pid].kind.ori, now)
                else SameButIdem(d1, d'))
            && d'.idem[ik].response.Some? && d'.idem == d.idem[ik := IdemRow(d.idem[ik].fingerprint, d'.idem[ik].response)]
            && var reply := d'.idem[ik].response.value;
               && !reply.inFlight && reply.orderStatus == Some(d'.orders[k].status)
               && ReversalTells(reply, r)
               && TypedFor(reply.typed, d'.orders[k].status, ShowsNoEffect(r, false), false, false)
  {
    var q := w.procs[pid];
    ReversalFacts(g, w, pid, now, r);
    var v := ClassifyReversal(q.call).value;
    hide Reachable, ClassifyReversal, Unwrap, Step, CommitReversal, TablesOk, FlipWrote, CasWrote, Acknowledged;
    d1 := ReversalWrites(g.cr, w.db, q.req, q.kind.ori, v, now);
    hide ReversalTells, TypedFor, ShowsNoEffect, FinalResponse;
  }

  /** What the proof above needs of a reversal about to commit. */
  lemma ReversalFacts(g: Config, w: World, pid: nat, now: int, r: HttpResponse)
    requires Reachable(g, w)
    requires pid in w.procs && w.procs[pid].HasReply? && w.procs[pid].kind.ReversalOf? && w.procs[pid].call == Unwrap(r)
    ensures var q := w.procs[pid];
            && TablesOk(g.cr, w.db) && q.req.Key() in w.db.orders && q.req.Idem() in w.db.idem
            && ClassifyReversal(q.call).Some?
            && var v := ClassifyReversal(q.call).value;
               && v.status == ReversalStatusBy(r)
               && (v.status == SUCCEEDED <==> Acknowledged(r).Some?)
               && v.status in {SUCCEEDED, FAILED, RESULT_UNKNOWN}
               && var (d', reply) := CommitReversal(g.cr, w.db, q.req, q.kind.ori, v, now);
                  && Step(g, w, Commit(pid, now)).db == d'
                  && reply.Some? && q.req.Key() in d'.orders
                  && !reply.value.inFlight && reply.value.orderStatus == Some(d'.orders[q.req.Key()].status)
                  && ReversalTells(reply.value, r)
                  && TypedFor(reply.value.typed, d'.orders[q.req.Key()].status, ShowsNoEffect(r, false), false, false)
  {
    var q := w.procs[pid];
    FreshReversalResponse(g, w, pid, now);
    var v := ClassifyReversal(q.call).value;
    ReachableOk(g, w);
    TablesAreOk(g, w);
    ProcIsOk(g, w, pid);
    VerdictsAreLegal(q.call, false);
    ReversalStatusByResponse(r);
    ReversalReports(g.cr, w.db, q.req, q.kind.ori, v, now);
    ReversalCommitIsStep(g, w, pid, now);
    var after := CommitReversal(g.cr, w.db, q.req, q.kind.ori, v, now).0.orders[q.req.Key()].status;
    hide CommitReversal, ClassifyReversal, Unwrap, WorldOk, FinalResponse, Reachable, TablesOk, Step, Acknowledged;
    ReversalReply(r, after, w.db.orders[q.req.Key()].status == ACCEPTED);
    hide ReversalTells, TypedFor, ShowsNoEffect;
  }

  lemma ReversalCommitIsStep(g: Config, w: World, pid: nat, now: int)
    requires pid in w.procs && w.procs[pid].HasReply? && w.procs[pid].kind.ReversalOf?
    requires ClassifyReversal(w.procs[pid].call).Some?
    ensures var q := w.procs[pid];
            Step(g, w, Commit(pid, now)).db ==
            CommitReversal(g.cr, w.db, q.req, q.kind.ori, ClassifyReversal(q.call).value, now).0
  {
    hide CommitReversal, ClassifyReversal;
  }

  // ---- status queries -----------------------------------------------------------------------

  /** The field reads as the text `s`. */
  predicate Reads(f: Field, s: string) {
    || f == Text(s)
    || (f.Other? && f.truthy && f.text == s)
    || (s == "" && (f in {Missing, Null} || (f.Other? && !f.truthy)))
  }

  /** The field says, in capitals or not, that the order ended in `s`. */
  predicate SaysStatus(f: Field, s: OrderStatus) {
    (f.Text? && WordFor(Upper(f.s), s)) || (f.Other? && WordFor(Upper(f.text), s))
  }

  lemma SaysStatusReads(f: Field, s: OrderStatus)
    ensures MapTxnStatus(f.Rendered()) == Some(s) <==> SaysStatus(f, s)
  {
    FieldReads(f, f.Rendered());
    MapTxnStatusReads(f.Rendered(), s);
    if f.Null? || f.Missing? {
      assert Upper("None") == "NONE" && Upper("") == "";
    }
    hide Upper, MapTxnStatus;
  }

  lemma IdentityReads(data: Data, k: OrderKey, transType: string)
    ensures SameIdentity(data, k, transType) <==> Reads(data.oriBizSeqNo, k.biz) && Reads(data.transType, transType)
  {
    FieldReads(data.oriBizSeqNo, k.biz);
    FieldReads(data.transType, transType);
  }

  predicate Given(t: Option<string>) {
    t.Some? && t.value != ""
  }

  /** What a report that the order ended in `s` changes, and whether it changes anything: an order not final
      yet takes it, SUCCEEDED is left for REVERSED only, and everything else stays. */
  ghost predicate ReportTaken(d: Tables, d': Tables, k: OrderKey, s: OrderStatus, f: Finalizer, changed: bool)
    requires k in d.orders
  {
    var o := d.orders[k];
    if o.status == SUCCEEDED && s == REVERSED then
      && changed
      && Wrote(d, d', k, o.(status := REVERSED, finalizedVia := Some(f.source)),
               Finalization(k, f.caller, REVERSED, f.source, Some(SUCCEEDED)),
               [Forwarding(k, o.action, REVERSED, f.source, f.trace)])
    else if o.status in {SUCCEEDED, FAILED, REVERSED} then !changed && d' == d
    else
      && changed
      && Wrote(d, d', k, o.(status := s, finalizedAt := Some(f.now), finalizedVia := Some(f.source)),
               Finalization(k, f.caller, s, f.source, None), [Forwarding(k, o.action, s, f.source, f.trace)])
  }

  ghost predicate Taken(d: Tables, d': Tables, k: OrderKey, s: OrderStatus, f: Finalizer)
    requires k in d.orders
  {
    exists changed :: ReportTaken(d, d', k, s, f, changed)
  }

  lemma SettleTaken(cr: Crypto, d: Tables, k: OrderKey, s: OrderStatus, f: Finalizer)
    requires TablesOk(cr, d) && s in {SUCCEEDED, FAILED, REVERSED}
    ensures var (d', out) := Ledger.Settle(cr, d, k, s, f);
            if k !in d.orders then d' == d && out == NoOrder
            else !out.NoOrder? && !out.Illegal? && ReportTaken(d, d', k, s, f, out.Upgraded? || out.Converged?)
  {
    SettleWrites(cr, d, k, s, f);
    hide Ledger.Settle, TablesOk, Wrote, Finalization, Forwarding;
  }

  /** A status query on good tables: without the order, its transType or its request date, and on any answer
      but one about this very order and type that says how it ended, nothing changes and it has not
      converged; on such an answer that is reported to the order. */
  lemma QueryOutcome(cr: Crypto, d: Tables, k: OrderKey, why: Why, call: CallResult, now: int)
    requires TablesOk(cr, d)
    ensures var (d', end) := QueryResult(cr, d, k, why, call, now);
            if k !in d.orders || !Given(d.orders[k].transType) || !Given(d.orders[k].oriReqDate) then
              d' == d && end == NotConverged
            else if call == OtherException then d' == d && end == QueryRaised
            else if !call.Returned? then d' == d && end == NotConverged
            else if !Reads(call.data.oriBizSeqNo, k.biz) || !Reads(call.data.transType, d.orders[k].transType.value) then
              d' == d && end == NotConverged
            else
              && ((forall s :: !SaysStatus(call.data.txnStatus, s)) ==> d' == d && end == NotConverged)
              && forall s :: SaysStatus(call.data.txnStatus, s) ==>
                   && end in {QueryConverged, NotConverged}
                   && ReportTaken(d, d', k, s,
                        Finalizer(if why == ForReconcile then RECONCILE else CALLBACK, "gateway", "reconcile-" + k.biz, now),
                        end == QueryConverged)
  {
    if k in d.orders && HasParams(d.orders[k]) && call.Returned? {
      IdentityReads(call.data, k, d.orders[k].transType.value);
      AnswerTaken(cr, d, k, why, call.data, now);
    }
    hide SameIdentity, SaysStatus, Ledger.Settle, TablesOk, ReportTaken, MapTxnStatus, Reads;
  }

  lemma AnswerTaken(cr: Crypto, d: Tables, k: OrderKey, why: Why, data: Data, now: int)
    requires TablesOk(cr, d) && k in d.orders && HasParams(d.orders[k])
    ensures var (d', end) := QueryResult(cr, d, k, why, Returned(data), now);
            && end in {QueryConverged, NotConverged}
            && (!SameIdentity(data, k, d.orders[k].transType.value) || (forall s :: !SaysStatus(data.txnStatus, s)) ==>
                  d' == d && end == NotConverged)
            && (SameIdentity(data, k, d.orders[k].transType.value) ==>
                  forall s :: SaysStatus(data.txnStatus, s) ==>
                    ReportTaken(d, d', k, s,
                      Finalizer(if why == ForReconcile then RECONCILE else CALLBACK, "gateway", "reconcile-" + k.biz, now),
                      end == QueryConverged))
  {
    forall s ensures MapTxnStatus(data.txnStatus.Rendered()) == Some(s) <==> SaysStatus(data.txnStatus, s) {
      SaysStatusReads(data.txnStatus, s);
    }
    var terminal := MapTxnStatus(data.txnStatus.Rendered());
    if terminal.Some? {
      SaysOneOfThree(data.txnStatus, terminal.value);
      SettleTaken(cr, d, k, terminal.value, QueryFinalizer(k, why, now));
    }
    hide MapTxnStatus, SameIdentity, SaysStatus, Ledger.Settle, TablesOk, ReportTaken;
  }

  // ---- callbacks ----------------------------------------------------------------------------

  /** A field that is there: a nonempty text, or a value that is not falsy. */
  predicate There(f: Field) {
    (f.Text? && f.s != "") || (f.Other? && f.truthy)
  }

  /** The text of a field that is there. */
  function TextOf(f: Field): string {
    match f
    case Text(s) => s
    case Other(t, _, _) => t
    case _ => ""
  }

  lemma CallbackReads(ik: InboxKey, body: CallbackBody, s: OrderStatus)
    ensures CallbackTerminal(body) == Some(s) <==> SaysStatus(body.txnStatus, s)
    ensures Truthy(body.biz) <==> There(body.biz)
    ensures Truthy(body.kind) <==> There(body.kind)
    ensures There(body.biz) ==> CallbackOrder(ik, body) == OrderKey(ik.tenant, TextOf(body.biz))
  {
    SaysStatusReads(body.txnStatus, s);
    hide SaysStatus, MapTxnStatus;
  }

  /** A callback that says how an order ended, on good tables and with nobody in between. Without an order
      number or a type it changes nothing; a repeat of a processed one neither. Otherwise the body stored
      first counts, also for a repeat: its status is reported to the order it names, in the tenant of the
      request, and the inbox row is processed; if there is no such order, the row waits for a repeat. */
  lemma CallbackOutcome(cr: Crypto, d: Tables, inbox: map<InboxKey, InboxRow>, ik: InboxKey, body: CallbackBody,
                        call: CallResult, trace: string, now: int, s: OrderStatus)
    requires TablesOk(cr, d)
    requires var stored := if ik in inbox then inbox[ik].body else body; There(stored.biz) && SaysStatus(stored.txnStatus, s)
    ensures var (d', inbox') := CallbackResult(cr, d, inbox, ik, body, call, trace, now);
            var stored := if ik in inbox then inbox[ik].body else body;
            var k := OrderKey(ik.tenant, TextOf(stored.biz));
            if !There(body.biz) || !There(body.kind) || (ik in inbox && inbox[ik].processed) then d' == d && inbox' == inbox
            else if k !in d.orders then
              && d' == d
              && inbox' == if ik in inbox then inbox else inbox[ik := InboxRow(body, false, Some("after_ingest_failed"))]
            else
              && inbox' == inbox[ik := InboxRow(stored, true, None)]
              && Taken(d, d', k, s, Finalizer(CALLBACK, "gateway", trace, now))
  {
    var stored := if ik in inbox then inbox[ik].body else body;
    CallbackReads(ik, body, s);
    ResolveSays(cr, d, ik, stored, ik !in inbox, call, trace, now, s);
    hide ResolveResult, Taken, TablesOk, SaysStatus, Truthy, There;
  }

  /** Driving a body that says how its order ended. */
  lemma ResolveSays(cr: Crypto, d: Tables, ik: InboxKey, body: CallbackBody, first: bool, call: CallResult, trace: string,
                    now: int, s: OrderStatus)
    requires TablesOk(cr, d) && There(body.biz) && SaysStatus(body.txnStatus, s)
    ensures var (d', resolved) := ResolveResult(cr, d, ik, body, first, call, trace, now);
            var k := OrderKey(ik.tenant, TextOf(body.biz));
            if k !in d.orders then d' == d && !resolved
            else resolved && Taken(d, d', k, s, Finalizer(CALLBACK, "gateway", trace, now))
  {
    CallbackReads(ik, body, s);
    SaysOneOfThree(body.txnStatus, s);
    var k, f := OrderKey(ik.tenant, TextOf(body.biz)), Finalizer(CALLBACK, "gateway", trace, now);
    var (d', out) := Ledger.Settle(cr, d, k, s, f);
    hide CallbackTerminal, Ledger.Settle, TablesOk, SaysStatus, There, TextOf, CallbackOrder, QueryResult;
    assert ResolveResult(cr, d, ik, body, first, call, trace, now) == (d', !out.NoOrder? && !out.Illegal?);
    hide ResolveResult;
    SettleTaken(cr, d, k, s, f);
    hide ReportTaken;
  }

  lemma SaysOneOfThree(f: Field, s: OrderStatus)
    requires SaysStatus(f, s)
    ensures s in {SUCCEEDED, FAILED, REVERSED}
  {
  }

  /** A callback whose status says nothing asks wedap, unless the order it names is final and not SUCCEEDED. */
  lemma VagueCallbackOutcome(cr: Crypto, d: Tables, inbox: map<InboxKey, InboxRow>, ik: InboxKey, body: CallbackBody,
                             call: CallResult, trace: string, now: int)
    requires TablesOk(cr, d)
    requires There(body.biz) && There(body.kind)
    requires var stored := if ik in inbox then inbox[ik].body else body;
             There(stored.biz) && forall s :: !SaysStatus(stored.txnStatus, s)
    requires ik in inbox ==> !inbox[ik].processed
    ensures var (d', inbox') := CallbackResult(cr, d, inbox, ik, body, call, trace, now);
            var stored := if ik in inbox then inbox[ik].body else body;
            var k := OrderKey(ik.tenant, TextOf(stored.biz));
            var done := inbox[ik := InboxRow(stored, true, None)];
            var waiting := if ik in inbox then inbox else inbox[ik := InboxRow(body, false, Some("after_ingest_failed"))];
            if k !in d.orders then d' == d && inbox' == waiting
            else if d.orders[k].status in {FAILED, REVERSED} then d' == d && inbox' == done
            else
              var (q, end) := QueryResult(cr, d, k, ForCallback(ik, ik !in inbox, d.orders[k].status == SUCCEEDED), call, now);
              && d' == q
              && inbox' == if d.orders[k].status == SUCCEEDED || end == QueryConverged then done else waiting
  {
    var stored := if ik in inbox then inbox[ik].body else body;
    CallbackReads(ik, body, SUCCEEDED);
    ResolveAsks(cr, d, ik, stored, ik !in inbox, call, trace, now);
    hide ResolveResult, QueryResult, TablesOk, SaysStatus, Truthy, There;
  }

  /** Driving a body whose status says nothing. */
  lemma ResolveAsks(cr: Crypto, d: Tables, ik: InboxKey, body: CallbackBody, first: bool, call: CallResult, trace: string, now: int)
    requires TablesOk(cr, d) && There(body.biz) && forall s :: !SaysStatus(body.txnStatus, s)
    ensures var (d', resolved) := ResolveResult(cr, d, ik, body, first, call, trace, now);
            var k := OrderKey(ik.tenant, TextOf(body.biz));
            if k !in d.orders then d' == d && !resolved
            else if d.orders[k].status in {FAILED, REVERSED} then d' == d && resolved
            else
              var (q, end) := QueryResult(cr, d, k, ForCallback(ik, first, d.orders[k].status == SUCCEEDED), call, now);
              d' == q && (resolved <==> d.orders[k].status == SUCCEEDED || end == QueryConverged)
  {
    CallbackReads(ik, body, SUCCEEDED);
    forall s ensures CallbackTerminal(body) != Some(s) {
      CallbackReads(ik, body, s);
    }
    var k := OrderKey(ik.tenant, TextOf(body.biz));
    if k in d.orders {
      FinalIsStamped(cr, d, k);
      NotConvergedStays(cr, d, k, ForCallback(ik, first, false), call, now);
    }
    hide CallbackTerminal, QueryResult, TablesOk, SaysStatus, There, TextOf, CallbackOrder;
  }

  lemma FinalIsStamped(cr: Crypto, d: Tables, k: OrderKey)
    requires TablesOk(cr, d) && k in d.orders
    ensures LooksFinal(d, k) <==> d.orders[k].status in {SUCCEEDED, FAILED, REVERSED}
  {
    assert OrderOk(d, k);
  }

  /** A query that has not converged on an order that is not final leaves it so. */
  lemma NotConvergedStays(cr: Crypto, d: Tables, k: OrderKey, why: Why, call: CallResult, now: int)
    requires TablesOk(cr, d) && k in d.orders
    ensures var (d', end) := QueryResult(cr, d, k, why, call, now);
            end == NotConverged && !IsTerminal(d.orders[k].status) ==> d' == d && !LooksFinal(d', k)
  {
    assert OrderOk(d, k);
    QueryOutcome(cr, d, k, why, call, now);
    if k in d.orders && HasParams(d.orders[k]) && call.Returned? && MapTxnStatus(call.data.txnStatus.Rendered()).Some? {
      SaysStatusReads(call.data.txnStatus, MapTxnStatus(call.data.txnStatus.Rendered()).value);
    }
    hide TablesOk, QueryResult, SaysStatus, Reads, OrderOk;
  }
}
