/** The invariant of the whole service and its preservation by every step. */
module ProtocolInv {
  import opened Prelude
  import opened States
  import opened WedapReply
  import opened MoneyWrite
  import opened AuditChain
  import opened Ledger
  import opened Confluence
  import opened Verdicts
  import opened Protocol
  import Outbox
  import Dispatcher

  // ---- evidence -----------------------------------------------------------------------------

  /** The input states outright that order `k` ended in `s`; a query counts only for the very order
      and transType it was asked about. */
  predicate Supports(i: Input, k: OrderKey, transType: Option<string>, s: OrderStatus) {
    match i
    case SubmitAnswer(j, repayment, call) => j == k && SubmitProves(call, repayment, s)
    case ReversalAnswer(j, ori, call) =>
      (j == k && ReversalProves(call, s)) || (ori == k && s == REVERSED && call.Returned?)
    case CallbackSaid(tenant, body) =>
      k == OrderKey(tenant, body.biz.Rendered()) && MapTxnStatus(body.txnStatus.Rendered()) == Some(s)
    case QuerySaid(j, asked, call) =>
      j == k && transType == Some(asked) && call.Returned? &&
      call.data.oriBizSeqNo.RenderedOrEmpty() == k.biz && call.data.transType.RenderedOrEmpty() == asked &&
      MapTxnStatus(call.data.txnStatus.Rendered()) == Some(s)
  }

  ghost predicate Proven(w: World, k: OrderKey, s: OrderStatus)
    requires k in w.db.orders
  {
    exists i :: i in w.inputs && Supports(i, k, w.db.orders[k].transType, s)
  }

  ghost predicate ProvenanceOk(w: World) {
    forall k: OrderKey, s: OrderStatus ::
      k in w.db.orders && s in SeqAt(w.db.trail, k) && IsTerminal(s) ==> Proven(w, k, s)
  }

  // ---- processes ----------------------------------------------------------------------------

  predicate HasSync(fs: seq<Feed>) {
    exists i :: 0 <= i < |fs| && fs[i].Sync?
  }

  predicate OpenStatus(s: OrderStatus) {
    s == ACCEPTED || IsTerminal(s)
  }

  /** A submit that has not committed its second transaction: its response is still open, and its
      order is ACCEPTED unless another writer already finalized it. */
  predicate Live(w: World, req: Request) {
    && req.Key() in w.db.orders
    && req.Idem() in w.db.idem
    && w.db.idem[req.Idem()].response.None?
    && OpenStatus(w.db.orders[req.Key()].status)
    && !HasSync(SeqAt(w.feeds, req.Key()))
  }

  /** The callback's verdict is reflected in its order, for good. */
  predicate Honoured(d: Tables, ik: InboxKey, body: CallbackBody) {
    var k := CallbackOrder(ik, body);
    && k in d.orders
    && d.orders[k].finalizedAt.Some?
    && IsTerminal(d.orders[k].status)
    && (CallbackTerminal(body) == Some(REVERSED) ==> d.orders[k].status in {FAILED, REVERSED})
  }

  predicate WhyOk(w: World, k: OrderKey, why: Why) {
    match why
    case ForReconcile => true
    case ForCallback(ik, _, wasSucceeded) =>
      && ik in w.inbox
      && k == CallbackOrder(ik, w.inbox[ik].body)
      && CallbackTerminal(w.inbox[ik].body).None?
      && (wasSucceeded ==> Honoured(w.db, ik, w.inbox[ik].body))
  }

  ghost predicate ProcOk(w: World, q: Proc) {
    match q
    case Calling(req, _) => Live(w, req) && req.Key() !in w.calls
    case Dialing(req, _) => Live(w, req)
    case HasReply(req, kind, call) =>
      Live(w, req) && Classify(req, kind, call).Some? && Heard(req, kind, call) in w.inputs
    case Querying(k, why) => WhyOk(w, k, why)
    case Asking(k, transType, why) =>
      WhyOk(w, k, why) && k in w.db.orders && w.db.orders[k].transType == Some(transType)
    case Answered(k, terminal, why) =>
      WhyOk(w, k, why) && k in w.db.orders && IsTerminal(terminal) && Proven(w, k, terminal)
    case Driving(ik, _) => ik in w.inbox
    case Rechecking(ik, _) => ik in w.inbox && CallbackTerminal(w.inbox[ik].body).None?
    case Resolved(ik, _) => ik in w.inbox && Honoured(w.db, ik, w.inbox[ik].body)
    case Unresolved(ik, _) => ik in w.inbox
  }

  ghost predicate ProcsOk(w: World) {
    forall p :: p in w.procs ==> ProcOk(w, w.procs[p])
  }

  /** No two processes submit the same order. */
  ghost predicate SoleOwners(w: World) {
    forall p, q :: p in w.procs && q in w.procs && p != q && w.procs[p].IsSubmit() && w.procs[q].IsSubmit() ==>
      w.procs[p].req.Key() != w.procs[q].req.Key()
  }

  ghost predicate InboxOk(w: World) {
    forall ik :: ik in w.inbox ==>
      && CallbackSaid(ik.tenant, w.inbox[ik].body) in w.inputs
      && (w.inbox[ik].processed ==> Honoured(w.db, ik, w.inbox[ik].body))
  }

  ghost predicate CallsOk(w: World) {
    NoDuplicates(w.calls) && forall k :: k in w.calls ==> k in w.db.orders
  }

  /** The status of an order is what its own machine makes of the verdicts fed to it. */
  ghost predicate FeedOk(w: World, k: OrderKey) {
    && AllLegal(SeqAt(w.feeds, k)) && OneSync(SeqAt(w.feeds, k))
    && (k in w.db.orders ==> w.db.orders[k].status == Final(SeqAt(w.feeds, k)))
    && (k !in w.db.orders ==> SeqAt(w.feeds, k) == [])
  }

  ghost predicate FeedsOk(w: World) {
    forall k: OrderKey :: FeedOk(w, k)
  }

  ghost predicate BaseOk(g: Config, w: World) {
    && TablesOk(g.cr, w.db)
    && Dispatcher.Inv(w.db.outbox, w.disp, g.policy.maxAttempts)
    && ProvenanceOk(w)
    && InboxOk(w)
    && CallsOk(w)
    && FeedsOk(w)
  }

  ghost predicate WorldOk(g: Config, w: World) {
    BaseOk(g, w) && ProcsOk(w) && SoleOwners(w)
  }

  // ---- what a step leaves alone -------------------------------------------------------------

  /** Everything a process other than the owner of `own` relies on survives the step. */
  ghost predicate Frame(w: World, w': World, own: Option<OrderKey>) {
    && Evolves(w.db, w'.db)
    && (forall ik: IdemKey :: ik in w.db.idem && Some(OrderKey(ik.tenant, ik.key)) != own ==>
          ik in w'.db.idem && w'.db.idem[ik] == w.db.idem[ik])
    && (forall j: OrderKey :: j in w.db.orders && Some(j) != own && OpenStatus(w.db.orders[j].status) ==>
          j in w'.db.orders && OpenStatus(w'.db.orders[j].status))
    && (forall j: OrderKey :: Some(j) != own && HasSync(SeqAt(w'.feeds, j)) ==> HasSync(SeqAt(w.feeds, j)))
    && w.inputs <= w'.inputs
    && (forall ik: InboxKey :: ik in w.inbox ==> ik in w'.inbox && w'.inbox[ik].body == w.inbox[ik].body)
    && (forall j: OrderKey :: j in w'.calls && Some(j) != own ==> j in w.calls)
  }

  lemma FrameTrans(w: World, w1: World, w': World, own: Option<OrderKey>)
    requires Frame(w, w1, own) && (Frame(w1, w', own) || Frame(w1, w', None))
    ensures Frame(w, w', own)
  {
    TablesEvolveTrans(w.db, w1.db, w'.db);
  }

  lemma ProvenStays(w: World, w': World, k: OrderKey, s: OrderStatus)
    requires k in w.db.orders && Proven(w, k, s)
    requires w.inputs <= w'.inputs && OrderEvolves(w.db, w'.db, k)
    ensures Proven(w', k, s)
  {
    var i :| i in w.inputs && Supports(i, k, w.db.orders[k].transType, s);
    assert i in w'.inputs;
  }

  lemma HonouredStays(w: World, w': World, own: Option<OrderKey>, ik: InboxKey, body: CallbackBody)
    requires Frame(w, w', own)
    requires Honoured(w.db, ik, body)
    ensures Honoured(w'.db, ik, body)
  {
    assert OrderEvolves(w.db, w'.db, CallbackOrder(ik, body));
  }

  lemma WhyStays(w: World, w': World, own: Option<OrderKey>, k: OrderKey, why: Why)
    requires Frame(w, w', own)
    requires WhyOk(w, k, why)
    ensures WhyOk(w', k, why)
  {
    if why.ForCallback? && why.wasSucceeded {
      HonouredStays(w, w', own, why.ik, w.inbox[why.ik].body);
    }
  }

  lemma ProcStays(w: World, w': World, own: Option<OrderKey>, q: Proc)
    requires Frame(w, w', own)
    requires ProcOk(w, q)
    requires q.IsSubmit() ==> Some(q.req.Key()) != own
    ensures ProcOk(w', q)
  {
    match q {
      case Calling(req, _) => assert OrderEvolves(w.db, w'.db, req.Key());
      case Dialing(req, _) => assert OrderEvolves(w.db, w'.db, req.Key());
      case HasReply(req, _, _) => assert OrderEvolves(w.db, w'.db, req.Key());
      case Querying(k, why) => WhyStays(w, w', own, k, why);
      case Asking(k, _, why) =>
        WhyStays(w, w', own, k, why);
        assert OrderEvolves(w.db, w'.db, k);
      case Answered(k, terminal, why) =>
        WhyStays(w, w', own, k, why);
        assert OrderEvolves(w.db, w'.db, k);
        ProvenStays(w, w', k, terminal);
      case Resolved(ik, _) => HonouredStays(w, w', own, ik, w.inbox[ik].body);
      case _ =>
    }
  }

  /** Only process `pid` may differ. */
  ghost predicate OthersSame(w: World, w': World, pid: nat) {
    && (forall p :: p in w'.procs && p != pid ==> p in w.procs)
    && (forall p :: p in w'.procs && p != pid ==> w'.procs[p] == w.procs[p])
  }

  /** Process `pid` owns `own`, or `own` is an order nobody knows yet. */
  predicate Owns(w: World, pid: nat, own: OrderKey) {
    own !in w.db.orders || (pid in w.procs && w.procs[pid].IsSubmit() && w.procs[pid].req.Key() == own)
  }

  lemma ProcsStay(w: World, w': World, own: Option<OrderKey>, pid: nat)
    requires ProcsOk(w) && SoleOwners(w)
    requires Frame(w, w', own) && OthersSame(w, w', pid)
    requires pid in w'.procs ==> ProcOk(w', w'.procs[pid])
    requires own.Some? ==> Owns(w, pid, own.value)
    ensures ProcsOk(w')
  {
    forall p | p in w'.procs ensures ProcOk(w', w'.procs[p]) {
      if p != pid {
        assert ProcOk(w, w.procs[p]);
        ProcStays(w, w', own, w.procs[p]);
      }
    }
  }

  lemma OwnersStay(w: World, w': World, pid: nat)
    requires ProcsOk(w) && SoleOwners(w)
    requires OthersSame(w, w', pid)
    requires pid in w'.procs && w'.procs[pid].IsSubmit() ==> Owns(w, pid, w'.procs[pid].req.Key())
    ensures SoleOwners(w')
  {
    forall p | p in w'.procs && p != pid && w'.procs[p].IsSubmit() && pid in w'.procs && w'.procs[pid].IsSubmit()
      ensures w'.procs[p].req.Key() != w'.procs[pid].req.Key()
    {
      assert ProcOk(w, w.procs[p]);
    }
  }

  /** A step of process `pid` that keeps the frame keeps all other processes good; only its own new
      state has to be looked at. */
  lemma StepOfOne(w: World, w': World, own: Option<OrderKey>, pid: nat)
    requires ProcsOk(w) && SoleOwners(w)
    requires Frame(w, w', own) && OthersSame(w, w', pid)
    requires pid in w'.procs ==> ProcOk(w', w'.procs[pid])
    requires own.Some? ==> Owns(w, pid, own.value)
    requires pid in w'.procs && w'.procs[pid].IsSubmit() ==> Owns(w, pid, w'.procs[pid].req.Key())
    ensures ProcsOk(w') && SoleOwners(w')
  {
    ProcsStay(w, w', own, pid);
    OwnersStay(w, w', pid);
  }

  // ---- feeding a verdict --------------------------------------------------------------------

  lemma SyncExtends(fs: seq<Feed>, f: Feed)
    requires AllLegal(fs) && OneSync(fs)
    requires Legal(f) && (f.Sync? ==> !HasSync(fs))
    ensures AllLegal(fs + [f]) && OneSync(fs + [f])
  {
  }

  lemma FeedKeepsFeeds(w: World, d': Tables, k: OrderKey, f: Feed)
    requires FeedsOk(w)
    requires Fed(w.db, d', k, f)
    requires Legal(f) && (f.Sync? ==> !HasSync(SeqAt(w.feeds, k)))
    ensures FeedsOk(Feeding(w, k, f).(db := d'))
  {
    var w' := Feeding(w, k, f).(db := d');
    assert FeedOk(w, k);
    FinalAppend(SeqAt(w.feeds, k), f);
    SyncExtends(SeqAt(w.feeds, k), f);
    forall j: OrderKey ensures FeedOk(w', j) {
      assert FeedOk(w, j);
    }
  }

  lemma FeedKeepsProvenance(w: World, d': Tables, k: OrderKey, f: Feed)
    requires ProvenanceOk(w)
    requires Fed(w.db, d', k, f)
    requires d'.orders[k].status != w.db.orders[k].status && IsTerminal(d'.orders[k].status) ==>
               Proven(w, k, d'.orders[k].status)
    ensures ProvenanceOk(Feeding(w, k, f).(db := d'))
  {
    var w' := Feeding(w, k, f).(db := d');
    forall j: OrderKey, s: OrderStatus | j in d'.orders && s in SeqAt(d'.trail, j) && IsTerminal(s)
      ensures Proven(w', j, s)
    {
      FedEvolves(w.db, d', k, f, j);
      assert s in SeqAt(w.db.trail, j) || (j == k && s == d'.orders[k].status);
      ProvenStays(w, w', j, s);
    }
  }

  lemma FeedFrames(w: World, d': Tables, k: OrderKey, f: Feed)
    requires Fed(w.db, d', k, f)
    requires Legal(f)
    ensures Frame(w, Feeding(w, k, f).(db := d'), if f.Sync? then Some(k) else None)
  {
    var w' := Feeding(w, k, f).(db := d');
    forall j: OrderKey ensures OrderEvolves(w.db, d', j) {
      FedEvolves(w.db, d', k, f, j);
    }
    forall j: OrderKey | j != k || !f.Sync?
      ensures HasSync(SeqAt(w'.feeds, j)) ==> HasSync(SeqAt(w.feeds, j))
    {
      if j == k && HasSync(SeqAt(w'.feeds, j)) {
        var i :| 0 <= i < |SeqAt(w'.feeds, j)| && SeqAt(w'.feeds, j)[i].Sync?;
        assert SeqAt(w.feeds, j)[i].Sync?;
      }
    }
  }

  lemma GrewKeepsDispatch(d: Tables, d': Tables, disp: Dispatcher.State, max: nat)
    requires Dispatcher.Inv(d.outbox, disp, max)
    requires OutboxGrew(d, d')
    ensures Dispatcher.Inv(d'.outbox, disp, max)
  {
    if d'.outbox != d.outbox {
      Dispatcher.AppendKeepsInv(d.outbox, disp, d'.outbox[|d.outbox|], max);
    }
  }

  lemma InboxStays(w: World, w': World, own: Option<OrderKey>)
    requires InboxOk(w)
    requires Frame(w, w', own)
    requires w'.inbox == w.inbox
    ensures InboxOk(w')
  {
    forall ik | ik in w'.inbox && w'.inbox[ik].processed ensures Honoured(w'.db, ik, w'.inbox[ik].body) {
      HonouredStays(w, w', own, ik, w.inbox[ik].body);
    }
  }

  /** Feeding one verdict for which there is evidence keeps everything but the processes. */
  lemma FeedKeepsBase(g: Config, w: World, d': Tables, k: OrderKey, f: Feed)
    requires BaseOk(g, w)
    requires Fed(w.db, d', k, f) && TablesOk(g.cr, d')
    requires Legal(f) && (f.Sync? ==> !HasSync(SeqAt(w.feeds, k)))
    requires d'.orders[k].status != w.db.orders[k].status && IsTerminal(d'.orders[k].status) ==>
               Proven(w, k, d'.orders[k].status)
    ensures var w' := Feeding(w, k, f).(db := d');
            BaseOk(g, w') && Frame(w, w', if f.Sync? then Some(k) else None)
  {
    var w' := Feeding(w, k, f).(db := d');
    FeedFrames(w, d', k, f);
    FeedKeepsFeeds(w, d', k, f);
    FeedKeepsProvenance(w, d', k, f);
    GrewKeepsDispatch(w.db, d', w.disp, g.policy.maxAttempts);
    InboxStays(w, w', if f.Sync? then Some(k) else None);
    assert CallsOk(w');
  }
}
