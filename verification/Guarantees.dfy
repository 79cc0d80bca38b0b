/** What the service guarantees, over every run from every initial database. */
module Guarantees {
  import opened Prelude
  import opened States
  import opened WedapReply
  import opened MoneyWrite
  import opened AuditChain
  import opened Ledger
  import opened Confluence
  import opened Verdicts
  import opened Protocol
  import opened ProtocolInv
  import opened ProtocolSteps
  import Outbox
  import Dispatcher

  /** A world some run leads to. */
  ghost predicate Reachable(g: Config, w: World) {
    exists w0: World, evs: seq<Event> :: Initial(g, w0) && w == Run(g, w0, evs)
  }

  lemma ReachableOk(g: Config, w: World)
    requires Reachable(g, w)
    ensures WorldOk(g, w)
  {
    var w0: World, evs: seq<Event> :| Initial(g, w0) && w == Run(g, w0, evs);
    InitialOk(g, w0);
    RunOk(g, w0, evs);
  }

  lemma ReachableStep(g: Config, w: World, e: Event)
    requires Reachable(g, w)
    ensures Reachable(g, Step(g, w, e))
  {
    var w0: World, evs: seq<Event> :| Initial(g, w0) && w == Run(g, w0, evs);
    hide Step;
    assert (evs + [e])[..|evs|] == evs;
    assert Step(g, w, e) == Run(g, w0, evs + [e]);
  }

  /** What wedap said stays said. */
  lemma StepKeepsInputs(g: Config, w: World, e: Event)
    ensures w.inputs <= Step(g, w, e).inputs
  {
    hide Register, Settle, CommitSubmit, CommitReversal, Dispatcher.Step, WriteAudit, MapTxnStatus, Classify;
  }

  lemma {:induction false} RunKeepsInputs(g: Config, w: World, evs: seq<Event>)
    ensures w.inputs <= Run(g, w, evs).inputs
  {
    hide Step;
    if evs != [] {
      RunKeepsInputs(g, w, evs[..|evs| - 1]);
      StepKeepsInputs(g, Run(g, w, evs[..|evs| - 1]), evs[|evs| - 1]);
    }
  }

  // ---- money is called once -----------------------------------------------------------------

  /** wedap is called for a money movement at most once per (tenant, bizSeqNo), and only for an
      order that was registered first. */
  lemma CalledAtMostOnce(g: Config, w: World)
    requires Reachable(g, w)
    ensures NoDuplicates(w.calls)
    ensures forall k :: k in w.calls ==> k in w.db.orders
  {
    ReachableOk(g, w);
  }

  /** A key that was registered under one business scope is refused under every other, and nothing is
      written. */
  lemma KeyReuseRefused(g: Config, w: World, req: Request, ik: IdemKey)
    requires Reachable(g, w)
    requires ik in w.db.idem && ik.tenant == req.tenant && ik.key == req.biz && ik.scope != req.scope
    ensures Register(g.cr, w.db, req) == (w.db, KeyStateConflict)
  {
    ReachableOk(g, w);
    TablesAreOk(g, w);
    assert IdemOk(w.db);
    hide WorldOk, TablesOk;
    assert req.Idem() !in w.db.idem && req.Key() in w.db.orders;
  }

  // ---- responses are replayed ---------------------------------------------------------------

  /** A second transaction answers its own idempotency row and no other. */
  lemma CommitAnswersItsOwn(g: Config, w: World, pid: nat, req: Request, kind: Kind, v: Verdict, now: int, ik: IdemKey)
    requires ik in w.db.idem && ik != req.Idem()
    ensures var d := CommitStep(g, w, pid, req, kind, v, now).db; ik in d.idem && d.idem[ik] == w.db.idem[ik]
  {
    hide Cas, ReverseOriginal, FinalResponse;
  }

  lemma CommitIsCommitStep(g: Config, w: World, pid: nat, now: int)
    requires pid in w.procs
    ensures var q := w.procs[pid];
            Step(g, w, Commit(pid, now)) ==
            if q.HasReply? && Classify(q.req, q.kind, q.call).Some?
            then CommitStep(g, w, pid, q.req, q.kind, Classify(q.req, q.kind, q.call).value, now)
            else w
  {
    hide CommitStep, Classify;
  }

  lemma CommitKeepsAnswered(g: Config, w: World, pid: nat, now: int, ik: IdemKey, r: Response)
    requires WorldOk(g, w)
    requires pid in w.procs
    requires Recorded(w.db, ik, r)
    ensures var d := Step(g, w, Commit(pid, now)).db; ik in d.idem && d.idem[ik] == w.db.idem[ik]
  {
    ProcIsOk(g, w, pid);
    CommitIsCommitStep(g, w, pid, now);
    hide WorldOk, Classify, CommitStep, Step;
    var q := w.procs[pid];
    if q.HasReply? && Classify(q.req, q.kind, q.call).Some? {
      assert ik != q.req.Idem();
      CommitAnswersItsOwn(g, w, pid, q.req, q.kind, Classify(q.req, q.kind, q.call).value, now, ik);
    }
  }

  /** Transactions that write no idempotency row. */
  lemma SettleKeepsIdem(cr: Crypto, d: Tables, k: OrderKey, terminal: OrderStatus, f: Finalizer)
    ensures Settle(cr, d, k, terminal, f).0.idem == d.idem
  {
  }

  lemma ProcKeepsIdem(g: Config, w: World, e: Event)
    requires OwnEvent(e) && !e.Commit? && e.pid in w.procs
    ensures Step(g, w, e).db.idem == w.db.idem
  {
    hide Settle, MapTxnStatus, Classify;
    forall k: OrderKey, terminal: OrderStatus, f: Finalizer ensures Settle(g.cr, w.db, k, terminal, f).0.idem == w.db.idem {
      SettleKeepsIdem(g.cr, w.db, k, terminal, f);
    }
  }

  lemma StepKeepsAnswered(g: Config, w: World, e: Event, ik: IdemKey, r: Response)
    requires WorldOk(g, w)
    requires Recorded(w.db, ik, r)
    ensures Recorded(Step(g, w, e).db, ik, r) && Step(g, w, e).db.idem[ik].fingerprint == w.db.idem[ik].fingerprint
  {
    hide WorldOk, Dispatcher.Step, ProcStep;
    if OwnEvent(e) && e.pid in w.procs {
      hide Step;
      if e.Commit? {
        CommitKeepsAnswered(g, w, e.pid, e.now, ik, r);
      } else {
        ProcKeepsIdem(g, w, e);
      }
    }
  }

  lemma {:induction false} RunKeepsAnswered(g: Config, w: World, evs: seq<Event>, ik: IdemKey, r: Response)
    requires WorldOk(g, w)
    requires Recorded(w.db, ik, r)
    ensures var d := Run(g, w, evs).db;
            Recorded(d, ik, r) && d.idem[ik].fingerprint == w.db.idem[ik].fingerprint
  {
    hide WorldOk, Step;
    if evs != [] {
      var w1 := Run(g, w, evs[..|evs| - 1]);
      RunOk(g, w, evs[..|evs| - 1]);
      RunKeepsAnswered(g, w, evs[..|evs| - 1], ik, r);
      StepKeepsAnswered(g, w1, evs[|evs| - 1], ik, r);
    }
  }

  /** Once a response is recorded, every later retry with an equal fingerprint gets that very
      response, every other retry is rejected, and neither writes anything. */
  lemma RetryIsReplay(g: Config, w: World, evs: seq<Event>, req: Request, r: Response)
    requires Reachable(g, w)
    requires Recorded(w.db, req.Idem(), r)
    ensures var d := Run(g, w, evs).db;
            Register(g.cr, d, req) ==
            (d, if g.cr.fingerprint(req.payload) == w.db.idem[req.Idem()].fingerprint then Replay(r) else PayloadMismatch)
  {
    ReachableOk(g, w);
    hide WorldOk, Run;
    RunKeepsAnswered(g, w, evs, req.Idem(), r);
  }

  lemma CommitKeepsFingerprint(g: Config, w: World, pid: nat, req: Request, kind: Kind, v: Verdict, now: int, ik: IdemKey)
    requires ik in w.db.idem
    ensures var d := CommitStep(g, w, pid, req, kind, v, now).db;
            ik in d.idem && d.idem[ik].fingerprint == w.db.idem[ik].fingerprint
  {
    hide Cas, ReverseOriginal, FinalResponse;
  }

  lemma StepKeepsFingerprint(g: Config, w: World, e: Event, ik: IdemKey)
    requires ik in w.db.idem
    ensures ik in Step(g, w, e).db.idem && Step(g, w, e).db.idem[ik].fingerprint == w.db.idem[ik].fingerprint
  {
    hide Dispatcher.Step, ProcStep;
    if OwnEvent(e) && e.pid in w.procs {
      if e.Commit? {
        CommitIsCommitStep(g, w, e.pid, e.now);
        var q := w.procs[e.pid];
        hide Step, CommitStep, Classify;
        if q.HasReply? && Classify(q.req, q.kind, q.call).Some? {
          CommitKeepsFingerprint(g, w, e.pid, q.req, q.kind, Classify(q.req, q.kind, q.call).value, e.now, ik);
        }
      } else {
        ProcKeepsIdem(g, w, e);
        hide Step;
      }
    }
  }

  lemma {:induction false} RunKeepsFingerprint(g: Config, w: World, evs: seq<Event>, ik: IdemKey)
    requires ik in w.db.idem
    ensures ik in Run(g, w, evs).db.idem && Run(g, w, evs).db.idem[ik].fingerprint == w.db.idem[ik].fingerprint
  {
    hide Step;
    if evs != [] {
      RunKeepsFingerprint(g, w, evs[..|evs| - 1], ik);
      StepKeepsFingerprint(g, Run(g, w, evs[..|evs| - 1]), evs[|evs| - 1], ik);
    }
  }

  ghost predicate TellsPayloads(cr: Crypto) {
    forall p: string, q: string :: cr.fingerprint(p) == cr.fingerprint(q) ==> p == q
  }

  /** When fingerprints tell payloads apart: after a first request was registered and whatever happened
      then, a retry of its key is rejected exactly when its payload differs, an equal one is given the
      recorded response or told to wait, and neither writes anything. */
  lemma PayloadDecidesRetry(g: Config, w: World, first: Request, evs: seq<Event>, req: Request)
    requires TellsPayloads(g.cr)
    requires Register(g.cr, w.db, first).1.Fresh? && req.Idem() == first.Idem()
    ensures var d := Run(g, w.(db := Register(g.cr, w.db, first).0), evs).db;
            var (d', early) := Register(g.cr, d, req);
            && d' == d && req.Idem() in d.idem
            && if req.payload != first.payload then early == PayloadMismatch
               else match d.idem[req.Idem()].response
                    case Some(r) => early == Replay(r)
                    case None => early.InFlight? && TellsPending(early.response, req.repayment)
  {
    RegisterEffect(g.cr, w.db, first);
    RunKeepsFingerprint(g, w.(db := Register(g.cr, w.db, first).0), evs, req.Idem());
    hide Run;
  }

  // ---- the audit log is the history ---------------------------------------------------------

  /** The history of an order as the audit log tells it. */
  function History(d: Tables, k: OrderKey): seq<OrderStatus> {
    [ACCEPTED] + Logged(d, k)
  }

  /** The ORDER_* rows of an order are exactly the path it took through the transition table, each
      status once, in order: replaying the log rebuilds its status, and an order without rows in the
      order table has none in the log. */
  lemma AuditLogIsHistory(g: Config, w: World, k: OrderKey)
    requires Reachable(g, w)
    ensures k in w.db.orders ==> HistoryTells(w.db, k)
    ensures k !in w.db.orders ==> Logged(w.db, k) == []
  {
    ReachableOk(g, w);
    TablesAreOk(g, w);
    HistoryOk(w.db, k);
  }

  ghost predicate HistoryTells(d: Tables, k: OrderKey)
    requires k in d.orders
  {
    var p := History(d, k);
    p == SeqAt(d.trail, k) && IsPath(p) && p[|p| - 1] == d.orders[k].status && NoDuplicates(p)
  }

  lemma HistoryOk(d: Tables, k: OrderKey)
    requires OrdersOk(d)
    ensures k in d.orders ==> HistoryTells(d, k)
    ensures k !in d.orders ==> Logged(d, k) == []
  {
    if k in d.orders {
      assert OrderOk(d, k);
      var p := SeqAt(d.trail, k);
      assert History(d, k) == [p[0]] + p[1..] == p;
      forall i, j | 0 <= i < j < |p| ensures p[i] != p[j] {
        PathVisitsOnce(p, i, j);
      }
    }
  }

  /** FAILED and REVERSED are final, SUCCEEDED is left only for REVERSED, a finalization time never
      changes, and no log loses a row: over every continuation of every run. */
  lemma NothingIsTakenBack(g: Config, w: World, evs: seq<Event>, k: OrderKey)
    requires Reachable(g, w)
    requires k in w.db.orders
    ensures Keeps(w.db, Run(g, w, evs).db, k)
  {
    ReachableOk(g, w);
    RunOk(g, w, evs);
    TablesAreOk(g, w);
    TablesAreOk(g, Run(g, w, evs));
    hide WorldOk, Run, OutboxOk, AuditOk, IdemOk, OrdersOk, Keeps;
    EvolvingKeeps(w.db, Run(g, w, evs).db, k);
  }

  ghost predicate Keeps(d: Tables, d': Tables, k: OrderKey)
    requires k in d.orders
  {
    && k in d'.orders
    && History(d, k) <= History(d', k)
    && (d.orders[k].status in {FAILED, REVERSED} ==> d'.orders[k].status == d.orders[k].status)
    && (d.orders[k].status == SUCCEEDED ==> d'.orders[k].status in {SUCCEEDED, REVERSED})
    && (d.orders[k].finalizedAt.Some? ==> d'.orders[k].finalizedAt == d.orders[k].finalizedAt)
    && AuditOf(d, k.tenant).log <= AuditOf(d', k.tenant).log
  }

  lemma EvolvingKeeps(d: Tables, d': Tables, k: OrderKey)
    requires OrdersOk(d) && OrdersOk(d')
    requires Evolves(d, d')
    requires k in d.orders
    ensures Keeps(d, d', k)
  {
    assert OrderEvolves(d, d', k);
    HistoryOk(d, k);
    HistoryOk(d', k);
    hide OrdersOk, History, IsPath, NoDuplicates;
    if d.orders[k].status == SUCCEEDED {
      SucceededStays(d, d', k);
    }
  }

  lemma SucceededStays(d: Tables, d': Tables, k: OrderKey)
    requires k in d.orders && k in d'.orders
    requires IsPath(History(d', k)) && History(d, k) <= History(d', k)
    requires History(d, k)[|History(d, k)| - 1] == SUCCEEDED
    requires History(d', k)[|History(d', k)| - 1] == d'.orders[k].status
    requires IsTerminal(d'.orders[k].status)
    ensures d'.orders[k].status in {SUCCEEDED, REVERSED}
  {
    var p, n := History(d', k), |History(d, k)|;
    if n < |p| {
      TerminalIsLeftOnlyForReversal(p, n - 1);
      PathRankMonotone(p, n, |p| - 1);
      if p[|p| - 1] == FAILED {
        EndsInFailed(p, n, |p| - 1);
      }
    }
  }

  /** FAILED is not reached from a status that only a reversal can follow. */
  lemma {:induction false} EndsInFailed(p: seq<OrderStatus>, i: nat, j: nat)
    requires IsPath(p)
    requires i <= j < |p|
    requires p[i] in {PARTIALLY_REVERSED, REVERSED}
    ensures p[j] in {PARTIALLY_REVERSED, REVERSED}
    decreases j - i
  {
    if i < j {
      EndsInFailed(p, i, j - 1);
      assert StepAt(p, j - 1);
    }
  }

  // ---- finalization and forwarding ----------------------------------------------------------

  /** `r` is the outbox row of order `k` having entered `s`. */
  predicate IsEventRow(r: Outbox.OutRow, k: OrderKey, s: OrderStatus) {
    Outbox.HasKey(r, k.tenant, Outbox.LIFECYCLE, Outbox.DedupKey(k.tenant, k.biz, s))
  }

  /** An order ever entered the terminal status `s` iff exactly one outbox row carries its key, and
      that row carries the order, its business action and `s`. */
  lemma ForwardedExactlyOnce(g: Config, w: World, k: OrderKey, s: OrderStatus)
    requires Reachable(g, w)
    requires IsTerminal(s)
    ensures (k in w.db.orders && s in History(w.db, k)) <==>
            (exists i :: 0 <= i < |w.db.outbox| && IsEventRow(w.db.outbox[i], k, s))
    ensures forall i, j ::
              (0 <= i < |w.db.outbox| && 0 <= j < |w.db.outbox| &&
               IsEventRow(w.db.outbox[i], k, s) && IsEventRow(w.db.outbox[j], k, s)) ==> i == j
    ensures forall i :: (0 <= i < |w.db.outbox| && IsEventRow(w.db.outbox[i], k, s)) ==>
              var e := w.db.outbox[i].payload;
              k in w.db.orders && e.biz == k.biz && e.status == s && e.action == w.db.orders[k].action
  {
    ReachableOk(g, w);
    TablesAreOk(g, w);
    hide WorldOk;
    HistoryOk(w.db, k);
    if k in w.db.orders && s in History(w.db, k) {
      assert Forwarded(w.db, k, s);
    }
    forall i | 0 <= i < |w.db.outbox| && IsEventRow(w.db.outbox[i], k, s)
      ensures w.db.outbox[i].payload.biz == k.biz && w.db.outbox[i].payload.status == s
      ensures RowOk(w.db, w.db.outbox[i])
    {
      var r := w.db.outbox[i];
      assert RowOk(w.db, r);
      Outbox.DedupKeyInjective(k.tenant, k.biz, s, r.payload.biz, r.payload.status);
    }
    forall i, j | 0 <= i < j < |w.db.outbox| ensures !(IsEventRow(w.db.outbox[i], k, s) && IsEventRow(w.db.outbox[j], k, s)) {
      assert !SameUniqueKey(w.db.outbox[i], w.db.outbox[j]);
    }
  }

  /** An order carries a finalization time exactly while its status is terminal. */
  lemma FinalizedIffTerminal(g: Config, w: World, k: OrderKey)
    requires Reachable(g, w)
    requires k in w.db.orders
    ensures w.db.orders[k].finalizedAt.Some? <==> IsTerminal(w.db.orders[k].status)
  {
    ReachableOk(g, w);
    TablesAreOk(g, w);
    assert OrderOk(w.db, k);
  }

  /** Every row of the outbox, under any number of dispatchers: attempts within budget and counting
      write-backs, all claims accounted for, and a sent row answered below 300. */
  lemma OutboxGuarantees(g: Config, w: World, i: nat)
    requires Reachable(g, w)
    requires g.policy.maxAttempts >= 1
    requires i < |w.db.outbox|
    ensures var h := SeqAt(w.disp.hist, i);
            var r := w.db.outbox[i];
            && Outbox.WithinBudget(Outbox.CellOf(r), g.policy.maxAttempts)
            && r.attempts == Outbox.WriteBacks(Outbox.SinceReplay(h))
            && Outbox.Claims(h) == Outbox.WriteBacks(h) + Outbox.Reclaims(h) + (if r.status == Outbox.SENDING then 1 else 0)
            && Outbox.Claims(Outbox.SinceReplay(h)) <= g.policy.maxAttempts + Outbox.Reclaims(Outbox.SinceReplay(h))
            && (r.status == Outbox.SENT ==>
                  h != [] && h[|h| - 1].WroteBack? && Dispatcher.AnsweredBelow300(w.disp, i, h[|h| - 1].token))
            && (forall j :: 0 <= j < |h| && h[j].WroteBack? && !Dispatcher.AnsweredBelow300(w.disp, i, h[j].token) ==>
                  Outbox.CellAfter(h[..j + 1], g.policy.maxAttempts).Some? &&
                  Outbox.CellAfter(h[..j + 1], g.policy.maxAttempts).value.status in {Outbox.RETRY, Outbox.DEAD})
  {
    ReachableOk(g, w);
    Dispatcher.RowGuarantees(w.db.outbox, w.disp, i, g.policy);
  }

  // ---- tamper evidence ----------------------------------------------------------------------

  /** Two reachable databases of the service whose heads for a tenant agree hold the same audit rows
      for it, unless the digest has a collision or a preimage of its start value among them. */
  lemma HeadsPinLogs(g: Config, w: World, w2: World, t: string)
    requires Reachable(g, w) && Reachable(g, w2)
    requires AuditOf(w.db, t).head.Some? && AuditOf(w.db, t).head == AuditOf(w2.db, t).head
    ensures var x, y := AuditOf(w.db, t).log, AuditOf(w2.db, t).log;
            x == y || Collision(g.cr.audit, x, y) || HitsGenesis(g.cr.audit, x) || HitsGenesis(g.cr.audit, y)
  {
    ReachableOk(g, w);
    ReachableOk(g, w2);
    TablesAreOk(g, w);
    TablesAreOk(g, w2);
    hide WorldOk;
    assert Consistent(g.cr.audit, AuditOf(w.db, t)) && Consistent(g.cr.audit, AuditOf(w2.db, t));
    hide TablesOk;
    HeadDeterminesLog(g.cr.audit, AuditOf(w.db, t).log, AuditOf(w2.db, t).log);
  }

  // ---- provenance ---------------------------------------------------------------------------

  /** No order is ever in a terminal status without an answer, a callback or an identity-checked
      query result that says so outright. */
  lemma TerminalNeedsEvidence(g: Config, w: World, k: OrderKey, s: OrderStatus)
    requires Reachable(g, w)
    requires k in w.db.orders && IsTerminal(s) && s in History(w.db, k)
    ensures exists i :: i in w.inputs && Supports(i, k, w.db.orders[k].transType, s)
  {
    ReachableOk(g, w);
    TablesAreOk(g, w);
    HistoryOk(w.db, k);
    assert Proven(w, k, s);
  }

  // ---- responses of fresh submits -----------------------------------------------------------

  /** What a submit that reaches its second transaction tells its caller, in any reachable world: a
      skipped CAS means the order was already final, and the typed fields never claim more than the
      answer and the ledger support. */
  lemma FreshSubmitResponse(g: Config, w: World, pid: nat, now: int)
    requires Reachable(g, w)
    requires pid in w.procs && w.procs[pid].HasReply? && w.procs[pid].kind.Plain?
    ensures var q := w.procs[pid];
            var k := q.req.Key();
            && ClassifySubmit(q.call, q.req.repayment).Some? && k in w.db.orders
            && (w.db.orders[k].status != ACCEPTED ==> IsTerminal(w.db.orders[k].status))
            && var (d', r) := CommitSubmit(g.cr, w.db, q.req, ClassifySubmit(q.call, q.req.repayment).value, now);
               && r.Some? && k in d'.orders && r.value.orderStatus == Some(d'.orders[k].status)
               && (r.value.typed.outcome == Some(NOT_APPLIED) <==>
                     d'.orders[k].status == FAILED && ZeroEffect(q.call, q.req.repayment))
               && (r.value.typed.outcome == Some(NOT_APPLIED) ==> r.value.fields.txnStatus == "FAILED")
               && (r.value.typed.outcome == Some(ACCEPTED_UPSTREAM) ==>
                     w.db.orders[k].status == ACCEPTED && d'.orders[k].status == SUBMITTED &&
                     r.value.fields.txnStatus in {"PROCESSING", "PENDING"})
               && (r.value.typed.outcome == None <==> d'.orders[k].status == SUCCEEDED)
  {
    ReachableOk(g, w);
    ProcIsOk(g, w, pid);
    hide WorldOk, ClassifySubmit;
    var q := w.procs[pid];
    var k := q.req.Key();
    var v := ClassifySubmit(q.call, q.req.repayment).value;
    var casApplied := w.db.orders[k].status == ACCEPTED;
    CommitReports(g.cr, w.db, q.req, v, now);
    hide CommitSubmit;
    SubmitResponseCoherent(q.call, q.req.repayment, CommitSubmit(g.cr, w.db, q.req, v, now).0.orders[k].status, casApplied);
  }

  /** The same from the HTTP response on: a submit whose call was answered by `r` claims that nothing moved
      exactly when its order ends FAILED and `r` shows it. */
  lemma FreshSubmitByResponse(g: Config, w: World, pid: nat, now: int, r: HttpResponse)
    requires Reachable(g, w)
    requires pid in w.procs && w.procs[pid].HasReply? && w.procs[pid].kind.Plain? && w.procs[pid].call == Unwrap(r)
    ensures var q := w.procs[pid];
            var k := q.req.Key();
            && ClassifySubmit(q.call, q.req.repayment).Some? && k in w.db.orders
            && var (d', reply) := CommitSubmit(g.cr, w.db, q.req, ClassifySubmit(q.call, q.req.repayment).value, now);
               && reply.Some? && k in d'.orders
               && (reply.value.typed.outcome == Some(NOT_APPLIED) <==>
                     d'.orders[k].status == FAILED && ShowsNoEffect(r, q.req.repayment))
               && (w.db.orders[k].status == ACCEPTED ==>
                     (reply.value.typed.outcome == Some(NOT_APPLIED) <==> ShowsNoEffect(r, q.req.repayment)))
  {
    FreshSubmitResponse(g, w, pid, now);
    var q := w.procs[pid];
    var v := ClassifySubmit(q.call, q.req.repayment).value;
    ZeroEffectByResponse(r, q.req.repayment);
    ReachableOk(g, w);
    ProcIsOk(g, w, pid);
    CommitReports(g.cr, w.db, q.req, v, now);
    OutcomeByResponse(r, q.req.repayment);
    hide CommitSubmit, ClassifySubmit, Unwrap, WorldOk, FinalResponse, ShowsNoEffect, Reachable;
  }

  /** What transaction 2 of a submit leaves of its order, and what it replies. */
  lemma CommitReports(cr: Crypto, d: Tables, req: Request, v: Verdict, now: int)
    requires req.Key() in d.orders && req.Idem() in d.idem
    ensures var k := req.Key();
            var (d', r) := CommitSubmit(cr, d, req, v, now);
            var casApplied := d.orders[k].status == ACCEPTED;
            && k in d'.orders
            && d'.orders[k].status == (if casApplied then v.status else d.orders[k].status)
            && d'.orders[k].submittedAt == (if casApplied then Some(now) else d.orders[k].submittedAt)
            && r == Some(FinalResponse(v, d'.orders[k].status, casApplied, req.repayment))
  {
  }

  lemma CasReports(cr: Crypto, d: Tables, req: Request, s: OrderStatus, now: int)
    requires req.Key() in d.orders
    ensures var o, o' := d.orders[req.Key()], Cas(cr, d, req, s, now).orders[req.Key()];
            && o'.status == (if o.status == ACCEPTED then s else o.status)
            && o'.submittedAt == (if o.status == ACCEPTED then Some(now) else o.submittedAt)
  {
  }

  lemma FlipReports(cr: Crypto, d: Tables, ori: OrderKey, f: Finalizer, k: OrderKey)
    requires k in d.orders
    ensures var o, o' := d.orders[k], ReverseOriginal(cr, d, ori, f).orders[k];
            && o'.status == (if k == ori && MayMove(o.status, REVERSED) then REVERSED else o.status)
            && o'.submittedAt == o.submittedAt
  {
  }

  /** The same for a reversal order, also when it names itself. */
  lemma ReversalReports(cr: Crypto, d: Tables, req: Request, ori: string, v: Verdict, now: int)
    requires req.Key() in d.orders && req.Idem() in d.idem
    ensures var k := req.Key();
            var (d', r) := CommitReversal(cr, d, req, ori, v, now);
            var casApplied := d.orders[k].status == ACCEPTED;
            && k in d'.orders
            && d'.orders[k].status == (if !casApplied then d.orders[k].status
                                       else if v.status == SUCCEEDED && ori == req.biz then REVERSED
                                       else v.status)
            && d'.orders[k].submittedAt == (if casApplied then Some(now) else d.orders[k].submittedAt)
            && r == Some(FinalResponse(v, d'.orders[k].status, casApplied, false))
  {
    CasReports(cr, d, req, v.status, now);
    FlipReports(cr, Cas(cr, d, req, v.status, now), OrderKey(req.tenant, ori), SyncFinalizer(req, now), req.Key());
    hide FinalResponse, Cas, ReverseOriginal;
  }

  /** The same for a reversal that reaches its second transaction. */
  lemma FreshReversalResponse(g: Config, w: World, pid: nat, now: int)
    requires Reachable(g, w)
    requires pid in w.procs && w.procs[pid].HasReply? && w.procs[pid].kind.ReversalOf?
    ensures var q := w.procs[pid];
            var k := q.req.Key();
            && ClassifyReversal(q.call).Some? && k in w.db.orders
            && (w.db.orders[k].status != ACCEPTED ==> IsTerminal(w.db.orders[k].status))
            && var (d', r) := CommitReversal(g.cr, w.db, q.req, q.kind.ori, ClassifyReversal(q.call).value, now);
               && r.Some? && k in d'.orders && r.value.orderStatus == Some(d'.orders[k].status)
               && (r.value.typed.outcome == Some(NOT_APPLIED) <==>
                     d'.orders[k].status == FAILED && !q.call.Returned? && ZeroEffect(q.call, false))
               && (r.value.typed.outcome == Some(NOT_APPLIED) ==> r.value.fields.txnStatus == "FAILED")
               && r.value.typed.outcome != Some(ACCEPTED_UPSTREAM)
               && (r.value.typed.outcome == None <==> d'.orders[k].status == SUCCEEDED)
  {
    ReachableOk(g, w);
    ProcIsOk(g, w, pid);
    hide WorldOk, ClassifyReversal;
    var q := w.procs[pid];
    var k := q.req.Key();
    var v := ClassifyReversal(q.call).value;
    var casApplied := w.db.orders[k].status == ACCEPTED;
    ReversalReports(g.cr, w.db, q.req, q.kind.ori, v, now);
    hide CommitReversal;
    ReversalResponseCoherent(q.call, CommitReversal(g.cr, w.db, q.req, q.kind.ori, v, now).0.orders[k].status, casApplied);
  }

  // ---- recorded responses -------------------------------------------------------------------

  /** wedap said, about this order, that no money moved. */
  predicate SaysNoEffect(i: Input, k: OrderKey) {
    match i
    case SubmitAnswer(j, repayment, call) => j == k && ZeroEffect(call, repayment)
    case ReversalAnswer(j, _, call) => j == k && !call.Returned? && ZeroEffect(call, false)
    case _ => false
  }

  /** The response claims no more than the order went through and wedap said. */
  ghost predicate Truthful(w: World, k: OrderKey, r: Response) {
    && k in w.db.orders
    && r.orderStatus.Some? && r.orderStatus.value in SeqAt(w.db.trail, k)
    && (r.typed.outcome == Some(NOT_APPLIED) ==>
          w.db.orders[k].status == FAILED && exists i :: i in w.inputs && SaysNoEffect(i, k))
    && (r.typed.outcome == Some(ACCEPTED_UPSTREAM) ==> SUBMITTED in SeqAt(w.db.trail, k))
    && (r.typed.outcome == None ==> SUCCEEDED in SeqAt(w.db.trail, k))
  }

  lemma TruthStays(w: World, w': World, k: OrderKey, r: Response)
    requires Truthful(w, k, r)
    requires OrderEvolves(w.db, w'.db, k) && w.inputs <= w'.inputs
    ensures Truthful(w', k, r)
  {
  }

  lemma StatusInTrail(g: Config, w: World, k: OrderKey)
    requires WorldOk(g, w) && k in w.db.orders
    ensures w.db.orders[k].status in SeqAt(w.db.trail, k)
  {
    TablesAreOk(g, w);
    assert OrderOk(w.db, k);
    StatusIsReachable(w.db, k);
  }

  /** The answer proves that nothing moved. */
  predicate AnswerSaysNoEffect(q: Proc)
    requires q.HasReply?
  {
    if q.kind.Plain? then ZeroEffect(q.call, q.req.repayment) else !q.call.Returned? && ZeroEffect(q.call, false)
  }

  function Committed(g: Config, w: World, q: Proc, now: int): (Tables, Option<Response>)
    requires q.HasReply? && Classify(q.req, q.kind, q.call).Some?
  {
    var v := Classify(q.req, q.kind, q.call).value;
    match q.kind
    case Plain => CommitSubmit(g.cr, w.db, q.req, v, now)
    case ReversalOf(ori) => CommitReversal(g.cr, w.db, q.req, ori, v, now)
  }

  ghost predicate ReplyFits(d: Tables, k: OrderKey, r: Response, noEffect: bool) {
    && k in d.orders && r.orderStatus == Some(d.orders[k].status)
    && (r.typed.outcome == Some(NOT_APPLIED) ==> d.orders[k].status == FAILED && noEffect)
    && (r.typed.outcome == Some(ACCEPTED_UPSTREAM) ==> d.orders[k].status == SUBMITTED)
    && (r.typed.outcome == None ==> d.orders[k].status == SUCCEEDED)
  }

  lemma CommittedReplyFits(g: Config, w: World, pid: nat, now: int)
    requires Reachable(g, w)
    requires pid in w.procs && w.procs[pid].HasReply?
    ensures var q := w.procs[pid];
            && Classify(q.req, q.kind, q.call).Some?
            && var (d', r) := Committed(g, w, q, now);
               r.Some? && ReplyFits(d', q.req.Key(), r.value, AnswerSaysNoEffect(q))
  {
    hide Reachable, CommitSubmit, CommitReversal, ClassifySubmit, ClassifyReversal, ZeroEffect;
    if w.procs[pid].kind.Plain? {
      FreshSubmitResponse(g, w, pid, now);
    } else {
      FreshReversalResponse(g, w, pid, now);
    }
  }

  lemma ReplyIsRecorded(g: Config, w: World, pid: nat, now: int)
    requires Reachable(g, w)
    requires pid in w.procs && w.procs[pid].HasReply? && Classify(w.procs[pid].req, w.procs[pid].kind, w.procs[pid].call).Some?
    ensures var q := w.procs[pid];
            var (d', r) := Committed(g, w, q, now);
            Step(g, w, Commit(pid, now)).db == d' && r.Some? && Recorded(d', q.req.Idem(), r.value)
    ensures Heard(w.procs[pid].req, w.procs[pid].kind, w.procs[pid].call) in w.inputs
  {
    var q := w.procs[pid];
    ReachableOk(g, w);
    ProcIsOk(g, w, pid);
    assert Live(w, q.req);
    CommitIsCommitStep(g, w, pid, now);
    hide Reachable, WorldOk, Step, Classify, CommitStep;
    CommitRecordsReply(g, w, pid, q.req, q.kind, Classify(q.req, q.kind, q.call).value, now);
  }

  /** Transaction 2 records what is true of its order. */
  lemma CommitIsTruthful(g: Config, w: World, pid: nat, now: int)
    requires Reachable(g, w)
    requires pid in w.procs && w.procs[pid].HasReply?
    ensures var ik, w' := w.procs[pid].req.Idem(), Step(g, w, Commit(pid, now));
            ik in w'.db.idem && w'.db.idem[ik].response.Some? &&
            Truthful(w', w.procs[pid].req.Key(), w'.db.idem[ik].response.value)
  {
    hide Reachable, WorldOk, Step, Classify, Committed, AnswerSaysNoEffect, SaysNoEffect, ReplyFits, Truthful;
    var q := w.procs[pid];
    var k := q.req.Key();
    var w' := Step(g, w, Commit(pid, now));
    CommittedReplyFits(g, w, pid, now);
    ReplyIsRecorded(g, w, pid, now);
    StepKeepsInputs(g, w, Commit(pid, now));
    NoEffectWasSaid(q);
    ReachableStep(g, w, Commit(pid, now));
    ReachableOk(g, w');
    StatusInTrail(g, w', k) by { assert k in w'.db.orders by { FitsKnows(w'.db, k, Committed(g, w, q, now).1.value, AnswerSaysNoEffect(q)); } }
    FitsIsTruthful(w', k, w'.db.idem[q.req.Idem()].response.value, AnswerSaysNoEffect(q));
  }

  lemma FitsKnows(d: Tables, k: OrderKey, r: Response, noEffect: bool)
    requires ReplyFits(d, k, r, noEffect)
    ensures k in d.orders
  {
  }

  lemma NoEffectWasSaid(q: Proc)
    requires q.HasReply?
    ensures AnswerSaysNoEffect(q) ==> SaysNoEffect(Heard(q.req, q.kind, q.call), q.req.Key())
  {
  }

  lemma FitsIsTruthful(w: World, k: OrderKey, r: Response, noEffect: bool)
    requires ReplyFits(w.db, k, r, noEffect) && w.db.orders[k].status in SeqAt(w.db.trail, k)
    requires noEffect ==> exists i :: i in w.inputs && SaysNoEffect(i, k)
    ensures Truthful(w, k, r)
  {
    hide SaysNoEffect;
  }

  lemma CommitStepRecords(g: Config, w: World, pid: nat, now: int, ik: IdemKey, r: Response)
    requires pid in w.procs && Recorded(Step(g, w, Commit(pid, now)).db, ik, r)
    ensures Recorded(w.db, ik, r) || (w.procs[pid].HasReply? && w.procs[pid].req.Idem() == ik)
  {
    CommitIsCommitStep(g, w, pid, now);
    var q := w.procs[pid];
    hide Step, Classify;
    if q.HasReply? && Classify(q.req, q.kind, q.call).Some? && ik != q.req.Idem() {
      CommitRecordsNoOther(g, w, pid, q.req, q.kind, Classify(q.req, q.kind, q.call).value, now, ik, r);
    }
  }

  lemma CommitRecordsNoOther(g: Config, w: World, pid: nat, req: Request, kind: Kind, v: Verdict, now: int, ik: IdemKey, r: Response)
    requires Recorded(CommitStep(g, w, pid, req, kind, v, now).db, ik, r) && ik != req.Idem()
    ensures Recorded(w.db, ik, r)
  {
    hide Cas, ReverseOriginal, FinalResponse;
  }

  /** Only transaction 2 of its own process records a response. */
  lemma StepRecords(g: Config, w: World, e: Event, ik: IdemKey, r: Response)
    requires Recorded(Step(g, w, e).db, ik, r)
    ensures Recorded(w.db, ik, r) ||
            (e.Commit? && e.pid in w.procs && w.procs[e.pid].HasReply? && w.procs[e.pid].req.Idem() == ik)
  {
    hide Dispatcher.Step, ProcStep;
    if OwnEvent(e) && e.pid in w.procs {
      if e.Commit? {
        CommitStepRecords(g, w, e.pid, e.now, ik, r);
      } else {
        ProcKeepsIdem(g, w, e);
        hide Step;
      }
    }
  }

  lemma TruthSurvivesStep(g: Config, w: World, e: Event, k: OrderKey, r: Response)
    requires Reachable(g, w) && Truthful(w, k, r)
    ensures Truthful(Step(g, w, e), k, r)
  {
    ReachableOk(g, w);
    StepOk(g, w, e);
    StepKeepsInputs(g, w, e);
    hide Reachable, WorldOk, Step, Truthful;
    assert k in w.db.orders ==> OrderEvolves(w.db, Step(g, w, e).db, k);
    TruthStays(w, Step(g, w, e), k, r);
  }

  lemma {:induction false} RunRecordsTruth(g: Config, w0: World, evs: seq<Event>, ik: IdemKey, r: Response)
    requires Initial(g, w0)
    requires Recorded(Run(g, w0, evs).db, ik, r)
    ensures Truthful(Run(g, w0, evs), OrderKey(ik.tenant, ik.key), r)
  {
    if evs != [] {
      var before, e := evs[..|evs| - 1], evs[|evs| - 1];
      var w := Run(g, w0, before);
      assert Reachable(g, w);
      hide Initial, Reachable, Step, Truthful;
      StepRecords(g, w, e, ik, r);
      if e.Commit? && e.pid in w.procs && w.procs[e.pid].HasReply? && w.procs[e.pid].req.Idem() == ik {
        CommitIsTruthful(g, w, e.pid, e.now);
      } else {
        RunRecordsTruth(g, w0, before, ik, r);
        TruthSurvivesStep(g, w, e, OrderKey(ik.tenant, ik.key), r);
      }
    }
  }

  /** In every reachable world, so long after it was given, a recorded response is true of its order: the
      status it names is one the order went through; one that says NOT_APPLIED belongs to an order that
      is FAILED to this day and about which wedap said that no money moved; one that says ACCEPTED to an
      order that was SUBMITTED; and one without outcome to an order that SUCCEEDED. */
  lemma RecordedResponsesAreTrue(g: Config, w: World, ik: IdemKey, r: Response)
    requires Reachable(g, w)
    requires Recorded(w.db, ik, r)
    ensures Truthful(w, OrderKey(ik.tenant, ik.key), r)
  {
    var w0: World, evs: seq<Event> :| Initial(g, w0) && w == Run(g, w0, evs);
    RunRecordsTruth(g, w0, evs, ik, r);
  }

  lemma CommitRecordsReply(g: Config, w: World, pid: nat, req: Request, kind: Kind, v: Verdict, now: int)
    requires req.Key() in w.db.orders && req.Idem() in w.db.idem
    ensures var w' := CommitStep(g, w, pid, req, kind, v, now);
            var (d', r) := if kind.Plain? then CommitSubmit(g.cr, w.db, req, v, now) else CommitReversal(g.cr, w.db, req, kind.ori, v, now);
            && w'.db == d' && r.Some? && Recorded(d', req.Idem(), r.value)
  {
    hide Cas, AdvanceReversal, FinalResponse;
  }

  // ---- reversals ----------------------------------------------------------------------------

  /** An accepted reversal does not always leave the original REVERSED: it does exactly when the
      original already was, or the reversal's own CAS applied and the table lets the original go
      there. */
  lemma ReversalFlipsIff(cr: Crypto, d: Tables, req: Request, ori: OrderKey, v: Verdict, now: int)
    requires req.Key() in d.orders && req.Idem() in d.idem
    requires ori in d.orders && ori.tenant == req.tenant && ori != req.Key()
    requires v.status == SUCCEEDED
    ensures var d' := CommitReversal(cr, d, req, ori.biz, v, now).0;
            && ori in d'.orders
            && (d'.orders[ori].status == REVERSED <==>
                  d.orders[ori].status == REVERSED ||
                  (d.orders[req.Key()].status == ACCEPTED && MayMove(d.orders[ori].status, REVERSED)))
  {
  }

  /** An accepted reversal of an unsettled order that names itself as its original ends REVERSED, not
      SUCCEEDED, and reports an unknown outcome. */
  lemma SelfReversal(cr: Crypto, d: Tables, req: Request, v: Verdict, now: int)
    requires req.Key() in d.orders && req.Idem() in d.idem
    requires d.orders[req.Key()].status == ACCEPTED && v.status == SUCCEEDED
    ensures var (d', r) := CommitReversal(cr, d, req, req.biz, v, now);
            && d'.orders[req.Key()].status == REVERSED
            && d'.trail[req.Key()] == SeqAt(d.trail, req.Key()) + [SUCCEEDED, REVERSED]
            && r.Some? && r.value.typed.outcome == Some(UNKNOWN)
  {
  }

  // ---- callbacks ----------------------------------------------------------------------------

  /** A PROCESSED inbox row means its order is final, now and in every continuation. */
  lemma ProcessedMeansFinal(g: Config, w: World, evs: seq<Event>, ik: InboxKey)
    requires Reachable(g, w)
    requires ik in w.inbox && w.inbox[ik].processed
    ensures var d := Run(g, w, evs).db;
            var k := CallbackOrder(ik, w.inbox[ik].body);
            k in d.orders && d.orders[k].finalizedAt.Some? && IsTerminal(d.orders[k].status)
  {
    ReachableOk(g, w);
    RunOk(g, w, evs);
    var k := CallbackOrder(ik, w.inbox[ik].body);
    assert Honoured(w.db, ik, w.inbox[ik].body);
    assert OrderEvolves(w.db, Run(g, w, evs).db, k);
  }

  /** Once a callback was processed, driving its stored terminal payload again, at any later time and
      any number of times, leaves orders, audit log and outbox as they are. */
  lemma RedriveChangesNothing(g: Config, w: World, evs: seq<Event>, ik: InboxKey, f: Finalizer)
    requires Reachable(g, w)
    requires ik in w.inbox && w.inbox[ik].processed && CallbackTerminal(w.inbox[ik].body).Some?
    ensures var d := Run(g, w, evs).db;
            var body := w.inbox[ik].body;
            Settle(g.cr, d, CallbackOrder(ik, body), CallbackTerminal(body).value, f) == (d, Unchanged)
  {
    ReachableOk(g, w);
    RunOk(g, w, evs);
    var k := CallbackOrder(ik, w.inbox[ik].body);
    assert Honoured(w.db, ik, w.inbox[ik].body);
    assert OrderEvolves(w.db, Run(g, w, evs).db, k);
  }

  // ---- confluence ---------------------------------------------------------------------------

  /** The status of every order is what the small machine of Confluence makes of the verdicts
      committed to it, and when no two of them conflict it is their join. */
  lemma StatusIsVerdicts(g: Config, w: World, k: OrderKey)
    requires Reachable(g, w)
    requires k in w.db.orders
    ensures var fs := SeqAt(w.feeds, k);
            && AllLegal(fs) && OneSync(fs)
            && w.db.orders[k].status == Final(fs)
            && (!Conflicting(fs) ==> w.db.orders[k].status == Join(fs))
  {
    ReachableOk(g, w);
    assert FeedOk(w, k);
    if !Conflicting(SeqAt(w.feeds, k)) {
      FinalIsJoin(SeqAt(w.feeds, k));
    }
  }

  /** Two runs that delivered the same verdicts about an order, in whatever order and however often,
      leave it in the same status, unless two of the verdicts conflict. */
  lemma RunsConverge(g: Config, w: World, w2: World, k: OrderKey)
    requires Reachable(g, w) && Reachable(g, w2)
    requires k in w.db.orders && k in w2.db.orders
    requires forall f :: f in SeqAt(w.feeds, k) <==> f in SeqAt(w2.feeds, k)
    requires !Conflicting(SeqAt(w.feeds, k))
    ensures w.db.orders[k].status == w2.db.orders[k].status
  {
    ReachableOk(g, w);
    ReachableOk(g, w2);
    assert FeedOk(w, k) && FeedOk(w2, k);
    SameVerdictsSameEnd(SeqAt(w.feeds, k), SeqAt(w2.feeds, k));
  }
}
