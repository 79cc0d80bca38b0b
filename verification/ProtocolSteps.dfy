/** Every step of the service keeps its invariant. */
module ProtocolSteps {
  import opened Prelude
  import opened States
  import opened WedapReply
  import opened MoneyWrite
  import opened AuditChain
  import opened Ledger
  import opened Confluence
  import opened Verdicts
  import opened Protocol
  import opened ProtocolInv
  import Outbox
  import Dispatcher

  /** Orders, their histories and feeds are as before; more may have been said. */
  lemma SameOrdersKeep(w: World, w': World)
    requires ProvenanceOk(w) && FeedsOk(w)
    requires w'.db.orders == w.db.orders && w'.db.trail == w.db.trail && w'.feeds == w.feeds
    requires w.inputs <= w'.inputs
    ensures ProvenanceOk(w') && FeedsOk(w')
  {
    forall k: OrderKey, s: OrderStatus | k in w'.db.orders && s in SeqAt(w'.db.trail, k) && IsTerminal(s)
      ensures Proven(w', k, s)
    {
      ProvenStays(w, w', k, s);
    }
    forall k: OrderKey ensures FeedOk(w', k) {
      assert FeedOk(w, k);
    }
  }

  /** Steps that touch neither tables, inbox, calls nor feeds. */
  lemma QuietStep(g: Config, w: World, w': World, pid: nat)
    requires WorldOk(g, w)
    requires w' == w.(procs := w'.procs, inputs := w'.inputs) && w.inputs <= w'.inputs
    requires OthersSame(w, w', pid)
    requires pid in w'.procs ==> ProcOk(w', w'.procs[pid])
    requires pid in w'.procs && w'.procs[pid].IsSubmit() ==> Owns(w, pid, w'.procs[pid].req.Key())
    ensures Good(g, w, w')
  {
    hide TablesOk, Dispatcher.Inv;
    StepOfOne(w, w', None, pid);
    InboxStays(w, w', None);
    SameOrdersKeep(w, w');
    assert CallsOk(w');
  }

  lemma TablesAreOk(g: Config, w: World)
    requires BaseOk(g, w)
    ensures TablesOk(g.cr, w.db)
  {
  }

  /** The step keeps the invariant and takes nothing back. */
  ghost predicate Good(g: Config, w: World, w': World) {
    WorldOk(g, w') && Evolves(w.db, w'.db)
  }

  lemma ProcIsOk(g: Config, w: World, pid: nat)
    requires WorldOk(g, w) && pid in w.procs
    ensures ProcOk(w, w.procs[pid])
  {
  }

  /** A change of tables by process `pid`, which then moves on or ends. */
  lemma EndStep(g: Config, w: World, w1: World, w': World, own: Option<OrderKey>, pid: nat)
    requires WorldOk(g, w) && BaseOk(g, w1)
    requires Frame(w, w1, own) && w1.procs == w.procs
    requires w' == w1.(procs := w'.procs) && OthersSame(w, w', pid)
    requires pid in w'.procs ==> ProcOk(w', w'.procs[pid])
    requires own.Some? ==> Owns(w, pid, own.value)
    requires pid in w'.procs && w'.procs[pid].IsSubmit() ==> Owns(w, pid, w'.procs[pid].req.Key())
    ensures Good(g, w, w')
  {
    SameBase(g, w1, w');
    hide BaseOk, ProcOk;
    FrameTrans(w, w1, w', own);
    StepOfOne(w, w', own, pid);
  }

  /** The base of the invariant does not look at processes. */
  lemma SameBase(g: Config, w: World, w': World)
    requires BaseOk(g, w)
    requires w' == w.(procs := w'.procs)
    ensures BaseOk(g, w')
    ensures forall own :: Frame(w, w', own)
  {
    hide TablesOk, Dispatcher.Inv;
    SameOrdersKeep(w, w');
    assert InboxOk(w') && CallsOk(w');
  }

  // ---- submits and reversals ----------------------------------------------------------------

  lemma NewOrderFrames(w: World, w': World, req: Request)
    requires req.Key() !in w.db.orders && req.Idem() !in w.db.idem
    requires w'.db.orders == w.db.orders[req.Key() := NewOrder(req)] && w'.db.trail == w.db.trail[req.Key() := [ACCEPTED]]
    requires w'.db.idem.Keys == w.db.idem.Keys + {req.Idem()}
    requires forall ik :: ik in w.db.idem ==> w'.db.idem[ik] == w.db.idem[ik]
    requires w' == w.(db := w'.db) && w'.db.audit == w.db.audit
    ensures Frame(w, w', Some(req.Key()))
  {
  }

  lemma NewOrderKeepsVerdicts(w: World, w': World, k: OrderKey)
    requires ProvenanceOk(w) && FeedsOk(w)
    requires k !in w.db.orders && k in w'.db.orders && w'.db.orders[k].status == ACCEPTED
    requires w'.db.orders == w.db.orders[k := w'.db.orders[k]] && w'.db.trail == w.db.trail[k := [ACCEPTED]]
    requires w' == w.(db := w'.db)
    ensures ProvenanceOk(w') && FeedsOk(w')
  {
    forall j: OrderKey, s: OrderStatus | j in w'.db.orders && s in SeqAt(w'.db.trail, j) && IsTerminal(s)
      ensures Proven(w', j, s)
    {
      ProvenStays(w, w', j, s);
    }
    forall j: OrderKey ensures FeedOk(w', j) {
      assert FeedOk(w, j);
    }
  }

  lemma StartKeepsBase(g: Config, w: World, req: Request)
    requires BaseOk(g, w)
    requires Register(g.cr, w.db, req).1.Fresh?
    ensures var w' := w.(db := Register(g.cr, w.db, req).0); BaseOk(g, w') && Frame(w, w', Some(req.Key()))
  {
    hide TablesOk, Dispatcher.Inv, Register, ProvenanceOk, FeedsOk;
    var d' := Register(g.cr, w.db, req).0;
    var w' := w.(db := d');
    RegisterEffect(g.cr, w.db, req);
    RegisterKeepsTables(g.cr, w.db, req);
    NewOrderFrames(w, w', req);
    NewOrderKeepsVerdicts(w, w', req.Key());
    InboxStays(w, w', Some(req.Key()));
    hide InboxOk, Frame;
    assert CallsOk(w');
  }

  lemma NewOrderHasNoVerdicts(g: Config, w: World, req: Request)
    requires BaseOk(g, w)
    requires Register(g.cr, w.db, req).1.Fresh?
    ensures var w' := w.(db := Register(g.cr, w.db, req).0); Live(w', req) && req.Key() !in w'.calls
    ensures req.Key() !in w.db.orders
  {
    RegisterEffect(g.cr, w.db, req);
    assert FeedOk(w, req.Key());
  }

  lemma StartOk(g: Config, w: World, pid: nat, req: Request, kind: Kind)
    requires WorldOk(g, w)
    ensures Good(g, w, StartStep(g, w, pid, req, kind))
  {
    hide BaseOk, ProcsOk, SoleOwners, Frame, Register;
    if pid !in w.procs && ValidBiz(req.biz) {
      var (d', early) := Register(g.cr, w.db, req);
      var w1 := w.(db := d');
      RegisterEffect(g.cr, w.db, req);
      if early.Fresh? {
        StartKeepsBase(g, w, req);
        NewOrderHasNoVerdicts(g, w, req);
        EndStep(g, w, w1, Put(w1, pid, Calling(req, kind)), Some(req.Key()), pid);
      } else {
        assert w1 == w;
      }
    }
  }

  lemma DialKeepsBase(g: Config, w: World, k: OrderKey)
    requires BaseOk(g, w)
    requires k in w.db.orders && k !in w.calls
    ensures var w' := w.(calls := w.calls + [k]); BaseOk(g, w') && Frame(w, w', Some(k))
  {
    hide TablesOk, Dispatcher.Inv;
    var w' := w.(calls := w.calls + [k]);
    SameOrdersKeep(w, w');
    hide ProvenanceOk, FeedsOk;
    assert CallsOk(w') && InboxOk(w');
  }

  lemma DialOk(g: Config, w: World, pid: nat)
    requires WorldOk(g, w)
    requires pid in w.procs && w.procs[pid].Calling?
    ensures Good(g, w, ProcStep(g, w, Dial(pid), w.procs[pid]))
  {
    hide BaseOk, ProcsOk, SoleOwners, Frame, Classify;
    var q := w.procs[pid];
    var k := q.req.Key();
    var w1 := w.(calls := w.calls + [k]);
    ProcIsOk(g, w, pid);
    assert Live(w, q.req) && k !in w.calls;
    DialKeepsBase(g, w, k);
    EndStep(g, w, w1, Put(w1, pid, Dialing(q.req, q.kind)), Some(k), pid);
  }

  lemma AnswerOk(g: Config, w: World, pid: nat, call: CallResult)
    requires WorldOk(g, w)
    requires pid in w.procs && w.procs[pid].Dialing?
    ensures Good(g, w, ProcStep(g, w, Answer(pid, call), w.procs[pid]))
  {
    hide BaseOk, ProcsOk, SoleOwners;
    var q := w.procs[pid];
    ProcIsOk(g, w, pid);
    QuietStep(g, w, AnswerStep(w, pid, q.req, q.kind, call), pid);
  }

  /** A classified answer is evidence for the status it is turned into. */
  lemma VerdictProven(w: World, req: Request, kind: Kind, call: CallResult)
    requires req.Key() in w.db.orders
    requires Heard(req, kind, call) in w.inputs && Classify(req, kind, call).Some?
    ensures var s := Classify(req, kind, call).value.status;
            && MayMove(ACCEPTED, s) && s in REACHABLE && Legal(Sync(s))
            && (IsTerminal(s) ==> Proven(w, req.Key(), s))
            && (kind.ReversalOf? && s == SUCCEEDED && OrderKey(req.tenant, kind.ori) in w.db.orders ==>
                  Proven(w, OrderKey(req.tenant, kind.ori), REVERSED))
  {
    var s := Classify(req, kind, call).value.status;
    var i := Heard(req, kind, call);
    VerdictsAreLegal(call, req.repayment);
    if IsTerminal(s) {
      SubmitVerdictIsProved(call, req.repayment, s);
      ReversalVerdictIsProved(call, s);
      assert Supports(i, req.Key(), w.db.orders[req.Key()].transType, s);
    }
    if kind.ReversalOf? && s == SUCCEEDED && OrderKey(req.tenant, kind.ori) in w.db.orders {
      assert call.Returned?;
      assert Supports(i, OrderKey(req.tenant, kind.ori), w.db.orders[OrderKey(req.tenant, kind.ori)].transType, REVERSED);
    }
  }

  lemma RecordShape(d: Tables, ik: IdemKey, r: Response)
    requires ik in d.idem
    ensures RecordResponse(d, ik, r) == d.(idem := RecordResponse(d, ik, r).idem)
  {
  }

  lemma RecordFrames(w: World, ik: IdemKey, r: Response)
    requires ik in w.db.idem
    ensures Frame(w, w.(db := RecordResponse(w.db, ik, r)), Some(OrderKey(ik.tenant, ik.key)))
  {
  }

  lemma RecordKeepsBase(g: Config, w: World, ik: IdemKey, r: Response)
    requires BaseOk(g, w)
    requires ik in w.db.idem
    ensures var w' := w.(db := RecordResponse(w.db, ik, r));
            BaseOk(g, w') && Frame(w, w', Some(OrderKey(ik.tenant, ik.key)))
  {
    var w' := w.(db := RecordResponse(w.db, ik, r));
    RecordKeepsTables(g.cr, w.db, ik, r);
    RecordFrames(w, ik, r);
    hide TablesOk, Dispatcher.Inv, RecordResponse;
    assert w'.db == w.db.(idem := w'.db.idem) by { RecordShape(w.db, ik, r); }
    SameOrdersKeep(w, w');
    hide ProvenanceOk, FeedsOk;
    InboxStays(w, w', Some(OrderKey(ik.tenant, ik.key)));
    hide Frame, InboxOk;
    assert CallsOk(w');
  }

  /** Recording the response of the process that is about to end. */
  lemma RecordOk(g: Config, w: World, w1: World, pid: nat, ik: IdemKey, r: Response)
    requires WorldOk(g, w) && BaseOk(g, w1)
    requires pid in w.procs && w.procs[pid].IsSubmit() && w.procs[pid].req.Idem() == ik
    requires ik in w1.db.idem
    requires w1.procs == w.procs && w1.inbox == w.inbox
    requires Frame(w, w1, Some(w.procs[pid].req.Key()))
    ensures Good(g, w, Drop(w1.(db := RecordResponse(w1.db, ik, r)), pid))
  {
    hide BaseOk, ProcsOk, SoleOwners, Frame;
    var k := w.procs[pid].req.Key();
    var w2 := w1.(db := RecordResponse(w1.db, ik, r));
    RecordKeepsBase(g, w1, ik, r);
    FrameTrans(w, w1, w2, Some(k));
    EndStep(g, w, w2, Drop(w2, pid), Some(k), pid);
  }

  lemma CasIsFed(g: Config, d: Tables, req: Request, s: OrderStatus, now: int)
    requires TablesOk(g.cr, d)
    requires req.Key() in d.orders
    requires MayMove(ACCEPTED, s) && s in REACHABLE
    ensures var d1 := Cas(g.cr, d, req, s, now);
            && Fed(d, d1, req.Key(), Sync(s))
            && TablesOk(g.cr, d1)
            && (d1.orders[req.Key()].status != d.orders[req.Key()].status ==> d1.orders[req.Key()].status == s)
  {
    assert OrderOk(d, req.Key());
    hide TablesOk, OrderOk, Cas, LogsGrew, OutboxGrew, OrderEvolves;
    CasFeeds(g.cr, d, req, s, now);
    CasKeepsTables(g.cr, d, req, s, now);
  }

  lemma SyncKeepsBase(g: Config, w: World, req: Request, s: OrderStatus, now: int)
    requires BaseOk(g, w)
    requires Live(w, req)
    requires MayMove(ACCEPTED, s) && s in REACHABLE && Legal(Sync(s))
    requires IsTerminal(s) ==> Proven(w, req.Key(), s)
    ensures var w1 := w.(feeds := Feeding(w, req.Key(), Sync(s)).feeds, db := Cas(g.cr, w.db, req, s, now));
            BaseOk(g, w1) && Frame(w, w1, Some(req.Key()))
  {
    var k := req.Key();
    var d1 := Cas(g.cr, w.db, req, s, now);
    TablesAreOk(g, w);
    hide BaseOk, TablesOk, Frame, Cas, Fed, HasSync, Proven;
    CasIsFed(g, w.db, req, s, now);
    assert w.(feeds := Feeding(w, k, Sync(s)).feeds, db := d1) == Feeding(w, k, Sync(s)).(db := d1);
    FeedKeepsBase(g, w, d1, k, Sync(s));
  }

  lemma CommitPlainShape(g: Config, w: World, pid: nat, req: Request, v: Verdict, now: int)
    requires Live(w, req)
    ensures var d1 := Cas(g.cr, w.db, req, v.status, now);
            var w1 := w.(feeds := Feeding(w, req.Key(), Sync(v.status)).feeds, db := d1);
            var r := CommitSubmit(g.cr, w.db, req, v, now).1;
            && r.Some?
            && CommitStep(g, w, pid, req, Plain, v, now) == Drop(w1.(db := RecordResponse(d1, req.Idem(), r.value)), pid)
  {
  }

  lemma CommitPlainOk(g: Config, w: World, pid: nat, now: int)
    requires WorldOk(g, w)
    requires pid in w.procs && w.procs[pid].HasReply? && w.procs[pid].kind.Plain?
    ensures Good(g, w, ProcStep(g, w, Commit(pid, now), w.procs[pid]))
  {
    hide BaseOk, ProcsOk, SoleOwners, Frame, Cas, CommitSubmit, CommitStep, ClassifySubmit, ClassifyReversal;
    var q := w.procs[pid];
    var req := q.req;
    ProcIsOk(g, w, pid);
    VerdictProven(w, req, q.kind, q.call);
    var v := Classify(req, q.kind, q.call).value;
    assert ProcStep(g, w, Commit(pid, now), q) == CommitStep(g, w, pid, req, Plain, v, now);
    CommitPlainShape(g, w, pid, req, v, now);
    hide ProcOk, ProcStep, Proven;
    var d1 := Cas(g.cr, w.db, req, v.status, now);
    var w1 := w.(feeds := Feeding(w, req.Key(), Sync(v.status)).feeds, db := d1);
    SyncKeepsBase(g, w, req, v.status, now);
    RecordOk(g, w, w1, pid, req.Idem(), CommitSubmit(g.cr, w.db, req, v, now).1.value);
  }

  lemma FlipKeepsBase(g: Config, w: World, k: OrderKey, f: Finalizer)
    requires BaseOk(g, w)
    requires k in w.db.orders ==> Proven(w, k, REVERSED)
    ensures var w1 := Feeding(w, k, Flip).(db := ReverseOriginal(g.cr, w.db, k, f));
            BaseOk(g, w1) && Frame(w, w1, None)
  {
    if k in w.db.orders {
      assert OrderOk(w.db, k);
      ReverseOriginalFeeds(g.cr, w.db, k, f);
      ReverseOriginalKeepsTables(g.cr, w.db, k, f);
      hide BaseOk, Frame, TablesOk, ReverseOriginal;
      FeedKeepsBase(g, w, ReverseOriginal(g.cr, w.db, k, f), k, Flip);
    } else {
      assert Feeding(w, k, Flip).(db := ReverseOriginal(g.cr, w.db, k, f)) == w;
    }
  }

  /** The world after a reversal order was advanced, before its original is looked at. */
  function Synced(g: Config, w: World, req: Request, s: OrderStatus, now: int): World
    requires req.Key() in w.db.orders
  {
    w.(feeds := Feeding(w, req.Key(), Sync(s)).feeds, db := Cas(g.cr, w.db, req, s, now))
  }

  function Flipped(g: Config, w: World, k: OrderKey, f: Finalizer): World {
    Feeding(w, k, Flip).(db := ReverseOriginal(g.cr, w.db, k, f))
  }

  lemma CommitReversalShape(g: Config, w: World, pid: nat, req: Request, ori: string, v: Verdict, now: int)
    requires Live(w, req)
    ensures var w1 := Synced(g, w, req, v.status, now);
            var flips := w.db.orders[req.Key()].status == ACCEPTED && v.status == SUCCEEDED;
            var w2 := if flips then Flipped(g, w1, OrderKey(req.tenant, ori), SyncFinalizer(req, now)) else w1;
            var r := CommitReversal(g.cr, w.db, req, ori, v, now).1;
            && r.Some? && req.Idem() in w2.db.idem
            && CommitStep(g, w, pid, req, ReversalOf(ori), v, now) ==
               Drop(w2.(db := RecordResponse(w2.db, req.Idem(), r.value)), pid)
  {
  }

  lemma AdvanceWithFlipOk(g: Config, w: World, req: Request, ori: OrderKey, s: OrderStatus, flips: bool, now: int)
    requires BaseOk(g, w)
    requires Live(w, req)
    requires MayMove(ACCEPTED, s) && s in REACHABLE && Legal(Sync(s))
    requires IsTerminal(s) ==> Proven(w, req.Key(), s)
    requires flips && ori in w.db.orders ==> Proven(w, ori, REVERSED)
    ensures var w1 := Synced(g, w, req, s, now);
            var w2 := if flips then Flipped(g, w1, ori, SyncFinalizer(req, now)) else w1;
            BaseOk(g, w2) && Frame(w, w2, Some(req.Key())) && w2.procs == w.procs && w2.inbox == w.inbox
  {
    var w1 := Synced(g, w, req, s, now);
    SyncKeepsBase(g, w, req, s, now);
    if flips {
      if ori in w1.db.orders {
        assert OrderEvolves(w.db, w1.db, ori);
        ProvenStays(w, w1, ori, REVERSED);
      }
      hide BaseOk, Frame, Cas;
      FlipKeepsBase(g, w1, ori, SyncFinalizer(req, now));
      FrameTrans(w, w1, Flipped(g, w1, ori, SyncFinalizer(req, now)), Some(req.Key()));
    }
  }

  lemma CommitReversalOk(g: Config, w: World, pid: nat, now: int)
    requires WorldOk(g, w)
    requires pid in w.procs && w.procs[pid].HasReply? && w.procs[pid].kind.ReversalOf?
    ensures Good(g, w, ProcStep(g, w, Commit(pid, now), w.procs[pid]))
  {
    hide BaseOk, ProcsOk, SoleOwners, Frame, Cas, CommitReversal, CommitStep, ClassifySubmit, ClassifyReversal;
    hide Synced, Flipped;
    var q := w.procs[pid];
    var req := q.req;
    ProcIsOk(g, w, pid);
    VerdictProven(w, req, q.kind, q.call);
    var v := Classify(req, q.kind, q.call).value;
    assert ProcStep(g, w, Commit(pid, now), q) == CommitStep(g, w, pid, req, q.kind, v, now);
    CommitReversalShape(g, w, pid, req, q.kind.ori, v, now);
    hide ProcOk, ProcStep, Proven;
    var ori := OrderKey(req.tenant, q.kind.ori);
    var flips := w.db.orders[req.Key()].status == ACCEPTED && v.status == SUCCEEDED;
    var w1 := Synced(g, w, req, v.status, now);
    var w2 := if flips then Flipped(g, w1, ori, SyncFinalizer(req, now)) else w1;
    AdvanceWithFlipOk(g, w, req, ori, v.status, flips, now);
    RecordOk(g, w, w2, pid, req.Idem(), CommitReversal(g.cr, w.db, req, q.kind.ori, v, now).1.value);
  }

  // ---- status queries -----------------------------------------------------------------------

  lemma ReadParamsOk(g: Config, w: World, pid: nat)
    requires WorldOk(g, w)
    requires pid in w.procs && w.procs[pid].Querying?
    ensures Good(g, w, ProcStep(g, w, ReadParams(pid), w.procs[pid]))
  {
    hide BaseOk, ProcsOk, SoleOwners;
    var q := w.procs[pid];
    ProcIsOk(g, w, pid);
    QuietStep(g, w, ReadParamsStep(w, pid, q.k, q.why), pid);
  }

  lemma ReplyProven(w: World, k: OrderKey, transType: string, call: CallResult, terminal: OrderStatus)
    requires k in w.db.orders && w.db.orders[k].transType == Some(transType)
    requires QuerySaid(k, transType, call) in w.inputs
    requires call.Returned? && SameIdentity(call.data, k, transType)
    requires MapTxnStatus(call.data.txnStatus.Rendered()) == Some(terminal)
    ensures Proven(w, k, terminal)
  {
    assert Supports(QuerySaid(k, transType, call), k, w.db.orders[k].transType, terminal);
  }

  /** A process that moves on, or ends, in a good state. */
  ghost predicate MovedOn(w: World, w': World, pid: nat) {
    && w' == w.(procs := w'.procs)
    && OthersSame(w, w', pid)
    && (pid in w'.procs ==> ProcOk(w', w'.procs[pid]) && !w'.procs[pid].IsSubmit())
  }

  lemma FinishedQueryOk(w: World, pid: nat, k: OrderKey, why: Why)
    requires WhyOk(w, k, why)
    ensures MovedOn(w, Finish(w, pid, why, false), pid)
    ensures MovedOn(w, FinishRaised(w, pid, why), pid)
  {
    hide Honoured, CallbackTerminal;
  }

  lemma ReplyProcOk(w: World, pid: nat, k: OrderKey, transType: string, why: Why, call: CallResult)
    requires ProcOk(w, Asking(k, transType, why))
    ensures MovedOn(Learn(w, QuerySaid(k, transType, call)), ReplyStep(w, pid, k, transType, why, call), pid)
  {
    var w1 := Learn(w, QuerySaid(k, transType, call));
    FinishedQueryOk(w1, pid, k, why);
    if call.Returned? && SameIdentity(call.data, k, transType) && MapTxnStatus(call.data.txnStatus.Rendered()).Some? {
      var terminal := MapTxnStatus(call.data.txnStatus.Rendered()).value;
      MapTxnStatusTerminal(call.data.txnStatus.Rendered());
      ReplyProven(w1, k, transType, call, terminal);
      hide Proven, SameIdentity, MapTxnStatus, WhyOk;
      assert ProcOk(Put(w1, pid, Answered(k, terminal, why)), Answered(k, terminal, why));
    } else {
      hide MovedOn, Finish, FinishRaised, MapTxnStatus, SameIdentity;
    }
  }

  lemma ReplyOk(g: Config, w: World, pid: nat, call: CallResult)
    requires WorldOk(g, w)
    requires pid in w.procs && w.procs[pid].Asking?
    ensures Good(g, w, ProcStep(g, w, Reply(pid, call), w.procs[pid]))
  {
    hide BaseOk, ProcsOk, SoleOwners;
    var q := w.procs[pid];
    var w' := ReplyStep(w, pid, q.k, q.transType, q.why, call);
    ProcIsOk(g, w, pid);
    ReplyProcOk(w, pid, q.k, q.transType, q.why, call);
    hide ProcOk, ReplyStep;
    QuietStep(g, w, w', pid);
  }

  /** After a settlement that found the order, the order is final, and a REVERSED report has been
      honoured unless the order had FAILED. */
  lemma SettleHonours(g: Config, d: Tables, k: OrderKey, terminal: OrderStatus, f: Finalizer)
    requires TablesOk(g.cr, d)
    requires k in d.orders && IsTerminal(terminal)
    ensures var (d', out) := Settle(g.cr, d, k, terminal, f);
            && !out.Illegal? && !out.NoOrder?
            && k in d'.orders && d'.orders[k].finalizedAt.Some? && IsTerminal(d'.orders[k].status)
            && (terminal == REVERSED ==> d'.orders[k].status in {FAILED, REVERSED})
  {
    assert OrderOk(d, k);
    SettleEffect(g.cr, d, k, terminal, f);
  }

  /** The status a report leads to, if it leads anywhere, is the reported one. */
  lemma ReportIsProven(w: World, d': Tables, k: OrderKey, terminal: OrderStatus)
    requires Fed(w.db, d', k, Report(terminal))
    requires Proven(w, k, terminal)
    ensures d'.orders[k].status != w.db.orders[k].status ==> Proven(w, k, d'.orders[k].status)
  {
  }

  lemma ReportKeepsBase(g: Config, w: World, k: OrderKey, terminal: OrderStatus, f: Finalizer)
    requires BaseOk(g, w)
    requires IsTerminal(terminal)
    requires k in w.db.orders ==> Proven(w, k, terminal)
    ensures var w1 := Feeding(w, k, Report(terminal)).(db := Settle(g.cr, w.db, k, terminal, f).0);
            BaseOk(g, w1) && Frame(w, w1, None)
  {
    if k in w.db.orders {
      TablesAreOk(g, w);
      assert OrderOk(w.db, k);
      hide BaseOk, Frame, TablesOk, OrderOk;
      SettleFeeds(g.cr, w.db, k, terminal, f);
      SettleKeepsTables(g.cr, w.db, k, terminal, f);
      hide Settle;
      ReportIsProven(w, Settle(g.cr, w.db, k, terminal, f).0, k, terminal);
      FeedKeepsBase(g, w, Settle(g.cr, w.db, k, terminal, f).0, k, Report(terminal));
    } else {
      assert Feeding(w, k, Report(terminal)).(db := Settle(g.cr, w.db, k, terminal, f).0) == w;
    }
  }

  lemma FinishOk(w: World, w1: World, pid: nat, k: OrderKey, why: Why, converged: bool)
    requires Frame(w, w1, None)
    requires WhyOk(w, k, why)
    requires converged ==> k in w1.db.orders && w1.db.orders[k].finalizedAt.Some? && IsTerminal(w1.db.orders[k].status)
    ensures var w' := Finish(w1, pid, why, converged);
            && w' == w1.(procs := w'.procs) && OthersSame(w1, w', pid)
            && (pid in w'.procs ==> ProcOk(w', w'.procs[pid]) && !w'.procs[pid].IsSubmit())
  {
    WhyStays(w, w1, None, k, why);
    hide Frame;
  }

  lemma SettleQueryOk(g: Config, w: World, pid: nat, now: int)
    requires WorldOk(g, w)
    requires pid in w.procs && w.procs[pid].Answered?
    ensures Good(g, w, ProcStep(g, w, SettleQuery(pid, now), w.procs[pid]))
  {
    hide BaseOk, ProcsOk, SoleOwners, Frame, Settle, Proven;
    var q := w.procs[pid];
    ProcIsOk(g, w, pid);
    var f := QueryFinalizer(q.k, q.why, now);
    var (d', out) := Settle(g.cr, w.db, q.k, q.terminal, f);
    var w1 := Feeding(w, q.k, Report(q.terminal)).(db := d');
    var converged := out.Upgraded? || out.Converged?;
    SettleHonours(g, w.db, q.k, q.terminal, f) by { TablesAreOk(g, w); }
    ReportKeepsBase(g, w, q.k, q.terminal, f);
    FinishOk(w, w1, pid, q.k, q.why, converged);
    EndStep(g, w, w1, Finish(w1, pid, q.why, converged), None, pid);
  }

  // ---- callbacks ----------------------------------------------------------------------------

  lemma ReceiveKeepsBase(g: Config, w: World, ik: InboxKey, body: CallbackBody)
    requires BaseOk(g, w)
    requires ik !in w.inbox
    ensures var w' := Learn(w, CallbackSaid(ik.tenant, body)).(inbox := w.inbox[ik := InboxRow(body, false, None)]);
            BaseOk(g, w') && Frame(w, w', None)
  {
    hide TablesOk, Dispatcher.Inv;
    var w' := Learn(w, CallbackSaid(ik.tenant, body)).(inbox := w.inbox[ik := InboxRow(body, false, None)]);
    SameOrdersKeep(w, w');
    hide ProvenanceOk, FeedsOk, Honoured;
    assert InboxOk(w') && CallsOk(w');
  }

  lemma CallbackOk(g: Config, w: World, pid: nat, ik: InboxKey, body: CallbackBody)
    requires WorldOk(g, w)
    ensures Good(g, w, CallbackStep(w, pid, ik, body))
  {
    hide BaseOk, ProcsOk, SoleOwners, Frame;
    var w' := CallbackStep(w, pid, ik, body);
    if pid in w.procs || !Truthy(body.biz) || !Truthy(body.kind) {
    } else if ik !in w.inbox {
      ReceiveKeepsBase(g, w, ik, body);
      var w1 := Learn(w, CallbackSaid(ik.tenant, body)).(inbox := w.inbox[ik := InboxRow(body, false, None)]);
      EndStep(g, w, w1, w', None, pid);
    } else if !w.inbox[ik].processed {
      QuietStep(g, w, w', pid);
    }
  }

  lemma MapTxnStatusTerminal(text: string)
    ensures MapTxnStatus(text).Some? ==> IsTerminal(MapTxnStatus(text).value)
  {
  }

  lemma CallbackProven(g: Config, w: World, ik: InboxKey)
    requires BaseOk(g, w)
    requires ik in w.inbox
    ensures var body := w.inbox[ik].body;
            var k := CallbackOrder(ik, body);
            k in w.db.orders && CallbackTerminal(body).Some? ==> Proven(w, k, CallbackTerminal(body).value)
  {
    var body := w.inbox[ik].body;
    var k := CallbackOrder(ik, body);
    if k in w.db.orders && CallbackTerminal(body).Some? {
      assert Supports(CallbackSaid(ik.tenant, body), k, w.db.orders[k].transType, CallbackTerminal(body).value);
    }
  }

  lemma LooksFinalHonours(g: Config, d: Tables, ik: InboxKey, body: CallbackBody)
    requires TablesOk(g.cr, d)
    requires CallbackTerminal(body).None?
    ensures LooksFinal(d, CallbackOrder(ik, body)) <==> Honoured(d, ik, body)
  {
    var k := CallbackOrder(ik, body);
    if k in d.orders { assert OrderOk(d, k); }
  }

  lemma DriveTerminalOk(g: Config, w: World, pid: nat, ik: InboxKey, first: bool, trace: string, now: int)
    requires WorldOk(g, w)
    requires pid in w.procs && ik in w.inbox && CallbackTerminal(w.inbox[ik].body).Some?
    ensures Good(g, w, DriveStep(g, w, pid, ik, first, trace, now))
  {
    hide BaseOk, ProcsOk, SoleOwners, Frame, Proven, TablesOk, MapTxnStatus;
    var body := w.inbox[ik].body;
    var k := CallbackOrder(ik, body);
    var terminal := CallbackTerminal(body).value;
    var f := Finalizer(CALLBACK, "gateway", trace, now);
    var (d', out) := Settle(g.cr, w.db, k, terminal, f);
    var w1 := Feeding(w, k, Report(terminal)).(db := d');
    var next := if out.NoOrder? || out.Illegal? then Unresolved(ik, first) else Resolved(ik, first);
    MapTxnStatusTerminal(body.txnStatus.Rendered());
    CallbackProven(g, w, ik);
    TablesAreOk(g, w);
    assert k !in w.db.orders ==> out.NoOrder?;
    hide Settle;
    if k in w.db.orders { SettleHonours(g, w.db, k, terminal, f); }
    assert ProcOk(Put(w1, pid, next), next);
    ReportKeepsBase(g, w, k, terminal, f);
    EndStep(g, w, w1, Put(w1, pid, next), None, pid);
  }

  lemma DriveQuietOk(g: Config, w: World, pid: nat, ik: InboxKey, first: bool, trace: string, now: int)
    requires WorldOk(g, w)
    requires pid in w.procs && !w.procs[pid].IsSubmit() && ik in w.inbox && CallbackTerminal(w.inbox[ik].body).None?
    ensures Good(g, w, DriveStep(g, w, pid, ik, first, trace, now))
  {
    hide BaseOk, ProcsOk, SoleOwners, TablesOk, Honoured;
    var body := w.inbox[ik].body;
    TablesAreOk(g, w);
    LooksFinalHonours(g, w.db, ik, body);
    hide CallbackTerminal, Settle, Feeding;
    QuietStep(g, w, DriveStep(g, w, pid, ik, first, trace, now), pid);
  }

  lemma DriveOk(g: Config, w: World, pid: nat, trace: string, now: int)
    requires WorldOk(g, w)
    requires pid in w.procs && w.procs[pid].Driving?
    ensures Good(g, w, ProcStep(g, w, Drive(pid, trace, now), w.procs[pid]))
  {
    hide BaseOk, ProcsOk, SoleOwners, DriveStep, CallbackTerminal;
    var q := w.procs[pid];
    ProcIsOk(g, w, pid);
    if CallbackTerminal(w.inbox[q.ik].body).Some? {
      DriveTerminalOk(g, w, pid, q.ik, q.first, trace, now);
    } else {
      DriveQuietOk(g, w, pid, q.ik, q.first, trace, now);
    }
  }

  lemma RecheckOk(g: Config, w: World, pid: nat)
    requires WorldOk(g, w)
    requires pid in w.procs && w.procs[pid].Rechecking?
    ensures Good(g, w, ProcStep(g, w, Recheck(pid), w.procs[pid]))
  {
    hide BaseOk, ProcsOk, SoleOwners, TablesOk;
    var q := w.procs[pid];
    ProcIsOk(g, w, pid);
    TablesAreOk(g, w);
    LooksFinalHonours(g, w.db, q.ik, w.inbox[q.ik].body);
    hide CallbackTerminal, LooksFinal, Honoured;
    QuietStep(g, w, RecheckStep(w, pid, q.ik, q.first), pid);
  }

  /** Setting an inbox row to what its callback has earned. */
  lemma InboxKeepsBase(g: Config, w: World, inbox': map<InboxKey, InboxRow>, ik: InboxKey)
    requires BaseOk(g, w)
    requires ik in w.inbox && ik in inbox' && inbox' == w.inbox[ik := inbox'[ik]]
    requires inbox'[ik].body == w.inbox[ik].body
    requires inbox'[ik].processed && !w.inbox[ik].processed ==> Honoured(w.db, ik, w.inbox[ik].body)
    ensures var w' := w.(inbox := inbox'); BaseOk(g, w') && Frame(w, w', None)
  {
    hide TablesOk, Dispatcher.Inv;
    var w' := w.(inbox := inbox');
    SameOrdersKeep(w, w');
    hide ProvenanceOk, FeedsOk, Honoured;
    assert InboxOk(w') && CallsOk(w');
  }

  lemma MarkOk(g: Config, w: World, pid: nat)
    requires WorldOk(g, w)
    requires pid in w.procs && (w.procs[pid].Resolved? || w.procs[pid].Unresolved?)
    ensures Good(g, w, ProcStep(g, w, Mark(pid), w.procs[pid]))
  {
    hide BaseOk, ProcsOk, SoleOwners, Frame, Honoured;
    var q := w.procs[pid];
    ProcIsOk(g, w, pid);
    var w' := MarkStep(w, pid, q);
    InboxKeepsBase(g, w, w'.inbox, q.ik);
    EndStep(g, w, w.(inbox := w'.inbox), w', None, pid);
  }

  // ---- everybody else -----------------------------------------------------------------------

  /** A change of audit or outbox alone. */
  lemma BackgroundStep(g: Config, w: World, w': World)
    requires WorldOk(g, w)
    requires w' == w.(db := w.db.(audit := w'.db.audit, outbox := w'.db.outbox), disp := w'.disp)
    requires TablesOk(g.cr, w'.db) && Dispatcher.Inv(w'.db.outbox, w'.disp, g.policy.maxAttempts)
    requires LogsGrew(w.db, w'.db)
    ensures Good(g, w, w')
  {
    hide TablesOk, Dispatcher.Inv;
    SameOrdersKeep(w, w');
    assert Frame(w, w', None);
    InboxStays(w, w', None);
    assert CallsOk(w');
    forall p | p in w'.procs ensures ProcOk(w', w'.procs[p]) {
      ProcStays(w, w', None, w.procs[p]);
    }
  }

  lemma DispatchOk(g: Config, w: World, de: Dispatcher.Event)
    requires WorldOk(g, w)
    ensures Good(g, w, Step(g, w, Dispatch(de)))
  {
    var (rows, disp) := Dispatcher.Step(w.db.outbox, w.disp, de, g.policy);
    hide TablesOk, Dispatcher.Inv, ProcsOk, SoleOwners, InboxOk, CallsOk, FeedsOk, ProvenanceOk, Dispatcher.Step, Evolves;
    Dispatcher.StepKeepsInv(w.db.outbox, w.disp, de, g.policy);
    Dispatcher.StepKeepsContent(w.db.outbox, w.disp, de, g.policy);
    assert forall i :: 0 <= i < |rows| ==> Dispatcher.SameContent(w.db.outbox[i], rows[i]);
    DispatchKeepsTables(g.cr, w.db, rows);
    BackgroundStep(g, w, Step(g, w, Dispatch(de)));
  }

  lemma OtherAuditOk(g: Config, w: World, c: Content)
    requires WorldOk(g, w)
    ensures Good(g, w, Step(g, w, OtherAudit(c)))
  {
    hide TablesOk, Dispatcher.Inv, ProcsOk, SoleOwners, InboxOk, CallsOk, FeedsOk, ProvenanceOk, LogsGrew, Evolves;
    if c.action.OrderAction? {
      TablesEvolveRefl(w.db);
    } else {
      OtherAuditKeepsTables(g.cr, w.db, c);
      WriteAuditGrows(g.cr, w.db, WriteAudit(g.cr, w.db, c), c);
      BackgroundStep(g, w, Step(g, w, OtherAudit(c)));
    }
  }

  lemma CrashOk(g: Config, w: World, pid: nat)
    requires WorldOk(g, w)
    ensures Good(g, w, Drop(w, pid))
  {
    hide BaseOk, ProcsOk, SoleOwners;
    QuietStep(g, w, Drop(w, pid), pid);
  }

  lemma MarkFailsOk(g: Config, w: World, pid: nat)
    requires WorldOk(g, w)
    requires pid in w.procs && w.procs[pid].Resolved?
    ensures Good(g, w, ProcStep(g, w, MarkFails(pid), w.procs[pid]))
  {
    hide BaseOk, ProcsOk, SoleOwners;
    ProcIsOk(g, w, pid);
    QuietStep(g, w, ProcStep(g, w, MarkFails(pid), w.procs[pid]), pid);
  }

  lemma SubmitterOk(g: Config, w: World, e: Event)
    requires WorldOk(g, w)
    requires OwnEvent(e) && e.pid in w.procs && w.procs[e.pid].IsSubmit()
    ensures Good(g, w, ProcStep(g, w, e, w.procs[e.pid]))
  {
    hide WorldOk, Evolves, Classify, CommitStep, DriveStep, RecheckStep, SettleStep, ReplyStep, ReadParamsStep, AnswerStep, MarkStep;
    var q := w.procs[e.pid];
    TablesEvolveRefl(w.db);
    match (e, q) {
      case (Dial(pid), Calling(_, _)) => DialOk(g, w, pid);
      case (Answer(pid, call), Dialing(_, _)) => AnswerOk(g, w, pid, call);
      case (Commit(pid, now), HasReply(_, kind, _)) =>
        if kind.Plain? { CommitPlainOk(g, w, pid, now); } else { CommitReversalOk(g, w, pid, now); }
      case (Crash(pid), _) => CrashOk(g, w, pid);
      case _ =>
    }
  }

  lemma QuerierOk(g: Config, w: World, e: Event)
    requires WorldOk(g, w)
    requires OwnEvent(e) && e.pid in w.procs && (w.procs[e.pid].Querying? || w.procs[e.pid].Asking? || w.procs[e.pid].Answered?)
    ensures Good(g, w, ProcStep(g, w, e, w.procs[e.pid]))
  {
    hide WorldOk, Evolves, Classify, CommitStep, DriveStep, RecheckStep, SettleStep, ReplyStep, ReadParamsStep, AnswerStep, MarkStep;
    var q := w.procs[e.pid];
    TablesEvolveRefl(w.db);
    match (e, q) {
      case (ReadParams(pid), Querying(_, _)) => ReadParamsOk(g, w, pid);
      case (Reply(pid, call), Asking(_, _, _)) => ReplyOk(g, w, pid, call);
      case (SettleQuery(pid, now), Answered(_, _, _)) => SettleQueryOk(g, w, pid, now);
      case (Crash(pid), _) => CrashOk(g, w, pid);
      case _ =>
    }
  }

  lemma HandlerOk(g: Config, w: World, e: Event)
    requires WorldOk(g, w)
    requires OwnEvent(e) && e.pid in w.procs && !w.procs[e.pid].IsSubmit() && !w.procs[e.pid].Querying? && !w.procs[e.pid].Asking? && !w.procs[e.pid].Answered?
    ensures Good(g, w, ProcStep(g, w, e, w.procs[e.pid]))
  {
    hide WorldOk, Evolves, Classify, CommitStep, DriveStep, RecheckStep, SettleStep, ReplyStep, ReadParamsStep, AnswerStep, MarkStep;
    var q := w.procs[e.pid];
    TablesEvolveRefl(w.db);
    match (e, q) {
      case (Drive(pid, trace, now), Driving(_, _)) => DriveOk(g, w, pid, trace, now);
      case (Recheck(pid), Rechecking(_, _)) => RecheckOk(g, w, pid);
      case (Mark(pid), Resolved(_, _)) => MarkOk(g, w, pid);
      case (Mark(pid), Unresolved(_, _)) => MarkOk(g, w, pid);
      case (MarkFails(pid), Resolved(_, _)) => MarkFailsOk(g, w, pid);
      case (Crash(pid), _) => CrashOk(g, w, pid);
      case _ =>
    }
  }

  lemma ProcStepOk(g: Config, w: World, e: Event)
    requires WorldOk(g, w)
    requires OwnEvent(e) && e.pid in w.procs
    ensures Good(g, w, ProcStep(g, w, e, w.procs[e.pid]))
  {
    hide WorldOk, Evolves, ProcStep;
    var q := w.procs[e.pid];
    if q.IsSubmit() {
      SubmitterOk(g, w, e);
    } else if q.Querying? || q.Asking? || q.Answered? {
      QuerierOk(g, w, e);
    } else {
      HandlerOk(g, w, e);
    }
  }

  /** Every step of every process, in any interleaving and with any answer, keeps the invariant. */
  lemma StepOk(g: Config, w: World, e: Event)
    requires WorldOk(g, w)
    ensures Good(g, w, Step(g, w, e))
  {
    hide WorldOk, ProcStep, Evolves;
    TablesEvolveRefl(w.db);
    match e {
      case Start(pid, req, kind) => StartOk(g, w, pid, req, kind);
      case Callback(pid, ik, body) => CallbackOk(g, w, pid, ik, body);
      case Reconcile(pid, k) =>
        if pid !in w.procs { QuietStep(g, w, Put(w, pid, Querying(k, ForReconcile)), pid); }
      case OtherAudit(c) => OtherAuditOk(g, w, c);
      case Dispatch(de) => DispatchOk(g, w, de);
      case _ =>
        if e.pid in w.procs { ProcStepOk(g, w, e); }
    }
  }

  lemma InitialOk(g: Config, w: World)
    requires Initial(g, w)
    ensures WorldOk(g, w)
  {
    assert forall k: OrderKey :: SeqAt(w.feeds, k) == [] && SeqAt(w.db.trail, k) == [];
  }

  /** The invariant holds after every run. */
  lemma {:induction false} RunOk(g: Config, w: World, evs: seq<Event>)
    requires WorldOk(g, w)
    ensures Good(g, w, Run(g, w, evs))
  {
    hide WorldOk;
    var w1 := Run(g, w, evs);
    if evs == [] {
      TablesEvolveRefl(w.db);
    } else {
      var w0 := Run(g, w, evs[..|evs| - 1]);
      RunOk(g, w, evs[..|evs| - 1]);
      StepOk(g, w0, evs[|evs| - 1]);
      hide Step;
      TablesEvolveTrans(w.db, w0.db, w1.db);
    }
  }
}
