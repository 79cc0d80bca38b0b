/** Worlds the service can be brought to: every history of verdicts an order may have is the history of
    some run, and the runs behind the surprising results are exhibited. */
module Realization {
  import opened Prelude
  import opened States
  import opened WedapReply
  import opened MoneyWrite
  import opened AuditChain
  import opened Ledger
  import opened Confluence
  import opened Protocol
  import opened ProtocolInv
  import opened ProtocolSteps
  import opened Guarantees
  import Service
  import Dispatcher

  const FRESH := World(Tables(map[], map[], map[], map[], []), map[], map[], Dispatcher.IDLE, [], {}, map[])

  lemma FreshIsReachable(g: Config)
    requires WellSized(g.cr.audit)
    ensures Reachable(g, FRESH)
  {
    assert Initial(g, FRESH);
    assert Run(g, FRESH, []) == FRESH;
  }

  lemma ReachableGoesOn(g: Config, w: World, evs: seq<Event>)
    requires Reachable(g, w)
    ensures Reachable(g, Run(g, w, evs))
  {
    var w0: World, before: seq<Event> :| Initial(g, w0) && w == Run(g, w0, before);
    Service.RunConcat(g, w0, before, evs);
  }

  // ---- pieces of runs -----------------------------------------------------------------------

  function Word(s: OrderStatus): string {
    match s
    case SUCCEEDED => "SUCCESS"
    case FAILED => "FAILED"
    case REVERSED => "REVERSED"
    case _ => "PROCESSING"
  }

  /** The words of wedap are already as the gateway normalizes them. */
  lemma WordIsNormal(s: OrderStatus)
    ensures Upper(Word(s)) == Word(s) && Strip(Word(s)) == Word(s)
  {
    var word := Word(s);
    assert word[0] in {'S', 'F', 'R', 'P'} && word[|word| - 1] in {'S', 'D', 'G'};
    assert StripLeft(word) == word && StripRight(word) == word;
    assert forall i :: 0 <= i < |word| ==> UpperChar(word[i]) == word[i];
  }

  lemma WordMeans(s: OrderStatus)
    requires IsTerminal(s)
    ensures MapTxnStatus(Word(s)) == Some(s)
  {
    WordIsNormal(s);
  }

  /** An answer that a submit turns into the given status. */
  function AnswerFor(s: OrderStatus): CallResult {
    if s == RESULT_UNKNOWN then TransportError
    else Returned(EMPTY_DATA.(txnStatus := Text(Word(s))))
  }

  lemma AnswerForMeans(s: OrderStatus)
    requires Legal(Sync(s))
    ensures var v := ClassifySubmit(AnswerFor(s), false); v.Some? && v.value.status == s
  {
    WordIsNormal(s);
    hide Upper, Strip;
  }

  function Sample(tenant: string, biz: string): Request {
    Request(tenant, biz, "scope", "COLLECT", "1.00", "lending", "request", "payload", Missing, None, false)
  }

  /** A callback about an order, with a request id of the given length. */
  function CallbackId(tenant: string, n: nat): InboxKey {
    InboxKey(tenant, seq(n, _ => 'c'))
  }

  function Says(biz: string, s: OrderStatus): CallbackBody {
    CallbackBody(Text(biz), Text("COLLECT"), Text(Word(s)))
  }

  // ---- one order under construction ---------------------------------------------------------

  /** A world in which the order of `req` has been fed exactly `fs`: its own submit waits to call until
      it is told its result, and the numbers from `used` on are still free for reversals. */
  ghost predicate Stage(g: Config, w: World, req: Request, bizs: seq<string>, fs: seq<Feed>, used: nat) {
    && Reachable(g, w)
    && req.Key() in w.db.orders && SeqAt(w.feeds, req.Key()) == fs
    && (forall p :: p in w.procs ==> p == 0)
    && (!HasSync(fs) ==> 0 in w.procs && w.procs[0] == Calling(req, Plain))
    && (forall ik :: ik in w.inbox ==> |ik.requestId| < |fs|)
    && (forall i :: used <= i < |bizs| ==> OrderKey(req.tenant, bizs[i]) !in w.db.orders)
  }

  /** Numbers a tenant can still give to orders. */
  ghost predicate Spare(bizs: seq<string>, biz: string) {
    && NoDuplicates(bizs) && biz !in bizs
    && forall i :: 0 <= i < |bizs| ==> ValidBiz(bizs[i])
  }

  lemma StageStart(g: Config, req: Request, bizs: seq<string>) returns (w: World)
    requires WellSized(g.cr.audit) && ValidBiz(req.biz) && Spare(bizs, req.biz)
    ensures Stage(g, w, req, bizs, [], 0)
  {
    w := Step(g, FRESH, Start(0, req, Plain));
    FreshIsReachable(g);
    ReachableStep(g, FRESH, Start(0, req, Plain));
    hide Reachable;
    RegisterEffect(g.cr, FRESH.db, req);
  }

  lemma SettleKeepsKeys(cr: Crypto, d: Tables, k: OrderKey, s: OrderStatus, f: Finalizer)
    ensures Settle(cr, d, k, s, f).0.orders.Keys == d.orders.Keys
  {
    hide Finalize;
  }

  lemma CallbackArrives(g: Config, w: World, pid: nat, ik: InboxKey, body: CallbackBody)
    requires pid !in w.procs && ik !in w.inbox && Truthy(body.biz) && Truthy(body.kind)
    ensures Step(g, w, Callback(pid, ik, body)) ==
            Put(Learn(w, CallbackSaid(ik.tenant, body)).(inbox := w.inbox[ik := InboxRow(body, false, None)]), pid, Driving(ik, true))
  {
  }

  lemma ReportIsFed(g: Config, w: World, pid: nat, ik: InboxKey, k: OrderKey, s: OrderStatus)
    requires pid in w.procs && w.procs[pid] == Driving(ik, true) && ik in w.inbox
    requires w.inbox[ik].body == Says(k.biz, s) && ik.tenant == k.tenant && IsTerminal(s)
    requires k in w.db.orders
    ensures var w' := Step(g, w, Drive(pid, "", 0));
            && w'.db == Settle(g.cr, w.db, k, s, Finalizer(CALLBACK, "gateway", "", 0)).0
            && w'.db.orders.Keys == w.db.orders.Keys
            && w'.feeds == w.feeds[k := SeqAt(w.feeds, k) + [Report(s)]]
            && w'.inbox == w.inbox && pid in w'.procs && w'.procs == w.procs[pid := w'.procs[pid]]
  {
    Service.DriveShape(g, w, pid, ik, true, "", 0);
    WordMeans(s);
    SettleKeepsKeys(g.cr, w.db, k, s, Finalizer(CALLBACK, "gateway", "", 0));
    hide Step, Settle, MapTxnStatus;
  }

  /** A callback arrives, is driven, and its process is gone. */
  lemma CallbackPasses(g: Config, w: World, pid: nat, ik: InboxKey, k: OrderKey, s: OrderStatus) returns (evs: seq<Event>)
    requires pid !in w.procs && ik !in w.inbox && ik.tenant == k.tenant && k.biz != "" && k in w.db.orders && IsTerminal(s)
    ensures var w' := Run(g, w, evs);
            && w'.db == Settle(g.cr, w.db, k, s, Finalizer(CALLBACK, "gateway", "", 0)).0
            && w'.db.orders.Keys == w.db.orders.Keys
            && w'.feeds == w.feeds[k := SeqAt(w.feeds, k) + [Report(s)]]
            && w'.inbox.Keys == w.inbox.Keys + {ik} && w'.procs == w.procs
  {
    var body := Says(k.biz, s);
    evs := [Callback(pid, ik, body), Drive(pid, "", 0), Crash(pid)];
    Service.RunThree(g, w, evs[0], evs[1], evs[2]);
    var w1 := Step(g, w, evs[0]);
    var w2 := Step(g, w1, evs[1]);
    hide Run, Step, Settle;
    CallbackArrives(g, w, pid, ik, body);
    ReportIsFed(g, w1, pid, ik, k, s);
    CrashShape(g, w2, pid);
    assert w2.procs - {pid} == w.procs;
  }

  /** One more report, by a callback that then is forgotten. */
  lemma StageReport(g: Config, w: World, req: Request, bizs: seq<string>, fs: seq<Feed>, used: nat, s: OrderStatus)
    returns (w': World)
    requires Stage(g, w, req, bizs, fs, used) && ValidBiz(req.biz) && IsTerminal(s)
    ensures Stage(g, w', req, bizs, fs + [Report(s)], used)
  {
    var ik := CallbackId(req.tenant, |fs|);
    assert |ik.requestId| == |fs|;
    NonEmptyBiz(req);
    hide Reachable, Settle, ValidBiz;
    var evs := CallbackPasses(g, w, 1, ik, req.Key(), s);
    w' := Run(g, w, evs);
    ReachableGoesOn(g, w, evs);
    HasSyncGrows(fs, Report(s));
    hide Run, HasSync;
  }

  lemma NonEmptyBiz(req: Request)
    requires ValidBiz(req.biz)
    ensures req.biz != ""
  {
  }

  lemma HasSyncGrows(fs: seq<Feed>, f: Feed)
    ensures HasSync(fs + [f]) <==> HasSync(fs) || f.Sync?
  {
    assert (fs + [f])[|fs|] == f;
    if HasSync(fs) {
      var i :| 0 <= i < |fs| && fs[i].Sync?;
      assert (fs + [f])[i].Sync?;
    }
  }

  lemma CrashShape(g: Config, w: World, pid: nat)
    ensures Step(g, w, Crash(pid)) == if pid in w.procs then Drop(w, pid) else w
  {
  }

  lemma CommitKeepsKeys(cr: Crypto, d: Tables, req: Request, ori: string, v: Verdict, now: int)
    ensures CommitSubmit(cr, d, req, v, now).0.orders.Keys == d.orders.Keys
    ensures CommitReversal(cr, d, req, ori, v, now).0.orders.Keys == d.orders.Keys
  {
    hide Cas, AdvanceReversal, FinalResponse;
  }

  /** A submit that waited is answered and commits. */
  lemma SubmitPasses(g: Config, w: World, req: Request, s: OrderStatus) returns (evs: seq<Event>)
    requires 0 in w.procs && w.procs[0] == Calling(req, Plain) && !req.repayment
    requires req.Key() in w.db.orders && Legal(Sync(s))
    ensures var w' := Run(g, w, evs);
            && w'.db.orders.Keys == w.db.orders.Keys
            && w'.feeds == w.feeds[req.Key() := SeqAt(w.feeds, req.Key()) + [Sync(s)]]
            && w'.inbox == w.inbox && w'.procs == w.procs - {0}
  {
    var call := AnswerFor(s);
    AnswerForMeans(s);
    var first, second := [Dial(0), Answer(0, call)], [Commit(0, 0)];
    evs := first + second;
    hide ClassifySubmit, AnswerFor, HasSync;
    Service.DialAndAnswerShape(g, w, 0, req, Plain, call);
    Service.RunConcat(g, w, first, second);
    hide Run;
    AnsweredSubmitCommits(g, Run(g, w, first), req, call);
  }

  lemma AnsweredSubmitCommits(g: Config, w: World, req: Request, call: CallResult)
    requires 0 in w.procs && w.procs[0] == HasReply(req, Plain, call) && req.Key() in w.db.orders
    requires ClassifySubmit(call, req.repayment).Some?
    ensures var w' := Run(g, w, [Commit(0, 0)]);
            && w'.db.orders.Keys == w.db.orders.Keys
            && w'.feeds == w.feeds[req.Key() := SeqAt(w.feeds, req.Key()) + [Sync(ClassifySubmit(call, req.repayment).value.status)]]
            && w'.inbox == w.inbox && w'.procs == w.procs - {0}
  {
    hide ClassifySubmit;
    Service.CommitShape(g, w, 0, req, Plain, call, 0);
    CommitKeepsKeys(g.cr, w.db, req, "", ClassifySubmit(call, req.repayment).value, 0);
    hide Run, CommitSubmit, CommitReversal;
  }

  lemma StageSync(g: Config, w: World, req: Request, bizs: seq<string>, fs: seq<Feed>, used: nat, s: OrderStatus)
    returns (w': World)
    requires Stage(g, w, req, bizs, fs, used) && !req.repayment && !HasSync(fs) && Legal(Sync(s))
    ensures Stage(g, w', req, bizs, fs + [Sync(s)], used)
  {
    hide Reachable;
    var evs := SubmitPasses(g, w, req, s);
    w' := Run(g, w, evs);
    ReachableGoesOn(g, w, evs);
    HasSyncGrows(fs, Sync(s));
    hide Run, HasSync;
  }

  /** The world in which a fresh reversal has been accepted by wedap and not yet committed. */
  lemma ReversalAnswered(g: Config, w: World, pid: nat, req: Request, ori: string) returns (evs: seq<Event>)
    requires pid !in w.procs && ValidBiz(req.biz) && Register(g.cr, w.db, req).1.Fresh?
    ensures var w' := Run(g, w, evs);
            && w'.db == Register(g.cr, w.db, req).0
            && w'.procs == w.procs[pid := HasReply(req, ReversalOf(ori), Returned(EMPTY_DATA))]
            && w'.feeds == w.feeds && w'.inbox == w.inbox
  {
    var kind, call := ReversalOf(ori), Returned(EMPTY_DATA);
    evs := [Start(pid, req, kind)] + [Dial(pid), Answer(pid, call)];
    Service.FirstHalfIsRun(g, w, pid, req, kind, call);
    hide Run, Register, ValidBiz;
    UpdateTwice(w.procs, pid, Dialing(req, kind), HasReply(req, kind, call));
  }

  lemma CommitFlips(g: Config, w: World, req: Request, ori: OrderKey, v: Verdict)
    requires req.Key() in w.db.orders && w.db.orders[req.Key()].status == ACCEPTED && v.status == SUCCEEDED
    requires ori in w.db.orders && ori.tenant == req.tenant && ori != req.Key()
    ensures var w' := CommitStep(g, w, 1, req, ReversalOf(ori.biz), v, 0);
            && w'.db.orders.Keys == w.db.orders.Keys
            && SeqAt(w'.feeds, ori) == SeqAt(w.feeds, ori) + [Flip]
            && w'.inbox == w.inbox && w'.procs == w.procs - {1}
  {
    CommitKeepsKeys(g.cr, w.db, req, ori.biz, v, 0);
    hide CommitReversal;
  }

  lemma AcceptedReversalCommits(g: Config, w: World, req: Request, ori: OrderKey)
    requires 1 in w.procs && w.procs[1] == HasReply(req, ReversalOf(ori.biz), Returned(EMPTY_DATA))
    requires req.Key() in w.db.orders && w.db.orders[req.Key()].status == ACCEPTED
    requires ori in w.db.orders && ori.tenant == req.tenant && ori != req.Key()
    ensures var w' := Run(g, w, [Commit(1, 0)]);
            && w'.db.orders.Keys == w.db.orders.Keys
            && SeqAt(w'.feeds, ori) == SeqAt(w.feeds, ori) + [Flip]
            && w'.inbox == w.inbox && w'.procs == w.procs - {1}
  {
    Service.CommitShape(g, w, 1, req, ReversalOf(ori.biz), Returned(EMPTY_DATA), 0);
    hide Run, CommitStep;
    CommitFlips(g, w, req, ori, ClassifyReversal(Returned(EMPTY_DATA)).value);
  }

  /** A reversal under a new number goes through without interruption. */
  lemma ReversalPasses(g: Config, w: World, req: Request, ori: OrderKey) returns (evs: seq<Event>)
    requires 1 !in w.procs && ValidBiz(req.biz) && Register(g.cr, w.db, req).1.Fresh?
    requires ori in w.db.orders && ori.tenant == req.tenant
    ensures var w' := Run(g, w, evs);
            && w'.db.orders.Keys == w.db.orders.Keys + {req.Key()}
            && SeqAt(w'.feeds, ori) == SeqAt(w.feeds, ori) + [Flip]
            && w'.inbox == w.inbox && w'.procs == w.procs
  {
    var first := ReversalAnswered(g, w, 1, req, ori.biz);
    evs := first + [Commit(1, 0)];
    Service.RunConcat(g, w, first, [Commit(1, 0)]);
    RegisterEffect(g.cr, w.db, req);
    var w1 := Run(g, w, first);
    hide Run, Register, ValidBiz, ClassifyReversal;
    assert w1.procs - {1} == w.procs;
    assert w1.db.orders.Keys == w.db.orders.Keys + {req.Key()};
    assert w1.db.orders[req.Key()].status == ACCEPTED && ori != req.Key();
    hide NewOrder, SeqAt;
    AcceptedReversalCommits(g, w1, req, ori);
  }

  lemma StageFlip(g: Config, w: World, req: Request, bizs: seq<string>, fs: seq<Feed>, used: nat) returns (w': World)
    requires Stage(g, w, req, bizs, fs, used) && Spare(bizs, req.biz) && used < |bizs|
    ensures Stage(g, w', req, bizs, fs + [Flip], used + 1)
  {
    var rvsl := Sample(req.tenant, bizs[used]);
    assert rvsl.Key() !in w.db.orders;
    assert Register(g.cr, w.db, rvsl).1.Fresh? by {
      ReachableOk(g, w);
      TablesAreOk(g, w);
    }
    hide Reachable, ValidBiz, Register;
    var evs := ReversalPasses(g, w, rvsl, req.Key());
    w' := Run(g, w, evs);
    ReachableGoesOn(g, w, evs);
    HasSyncGrows(fs, Flip);
    hide Run, HasSync;
    forall i | used + 1 <= i < |bizs| ensures OrderKey(req.tenant, bizs[i]) !in w'.db.orders {
      assert bizs[i] != bizs[used];
    }
  }

  // ---- every history is the history of a run ------------------------------------------------

  function Flips(fs: seq<Feed>): nat {
    if fs == [] then 0 else Flips(fs[..|fs| - 1]) + if fs[|fs| - 1].Flip? then 1 else 0
  }

  lemma {:induction false} BuildStage(g: Config, req: Request, bizs: seq<string>, fs: seq<Feed>) returns (w: World)
    requires WellSized(g.cr.audit) && ValidBiz(req.biz) && Spare(bizs, req.biz) && !req.repayment
    requires AllLegal(fs) && OneSync(fs) && Flips(fs) <= |bizs|
    ensures Stage(g, w, req, bizs, fs, Flips(fs))
  {
    if fs == [] {
      w := StageStart(g, req, bizs);
    } else {
      var n := |fs| - 1;
      var rest := fs[..n];
      w := BuildStage(g, req, bizs, rest);
      assert fs == rest + [fs[n]] && Legal(fs[n]);
      hide Stage;
      match fs[n] {
        case Sync(s) =>
          assert !HasSync(rest);
          w := StageSync(g, w, req, bizs, rest, Flips(rest), s);
        case Report(s) => w := StageReport(g, w, req, bizs, rest, Flips(rest), s);
        case Flip => w := StageFlip(g, w, req, bizs, rest, Flips(rest));
      }
    }
  }

  /** Every legal sequence of verdicts with at most one synchronous one is what some run feeds an order,
      as long as the tenant has a number left for each reversal in it. */
  lemma EveryHistoryHappens(g: Config, k: OrderKey, bizs: seq<string>, fs: seq<Feed>) returns (w: World)
    requires WellSized(g.cr.audit) && ValidBiz(k.biz) && Spare(bizs, k.biz)
    requires AllLegal(fs) && OneSync(fs) && Flips(fs) <= |bizs|
    ensures Reachable(g, w) && k in w.db.orders && SeqAt(w.feeds, k) == fs
  {
    w := BuildStage(g, Sample(k.tenant, k.biz), bizs, fs);
  }

  // ---- order of arrival, for the service ----------------------------------------------------

  /** A reachable world whose order was fed the verdicts `fs` in some order. */
  ghost predicate FedWith(g: Config, w: World, k: OrderKey, fs: seq<Feed>) {
    Reachable(g, w) && k in w.db.orders && multiset(SeqAt(w.feeds, k)) == multiset(fs)
  }

  lemma {:induction false} FlipsCounted(fs: seq<Feed>)
    ensures Flips(fs) == multiset(fs)[Flip]
  {
    if fs != [] {
      var n := |fs| - 1;
      FlipsCounted(fs[..n]);
      assert fs == fs[..n] + [fs[n]];
    }
  }

  /** Conflicting verdicts come, in two runs of the service, to different ends. */
  lemma ConflictHappens(g: Config, k: OrderKey, bizs: seq<string>, fs: seq<Feed>) returns (w: World, w2: World)
    requires WellSized(g.cr.audit) && ValidBiz(k.biz) && Spare(bizs, k.biz)
    requires AllLegal(fs) && OneSync(fs) && Flips(fs) <= |bizs|
    requires Conflicting(fs)
    ensures FedWith(g, w, k, fs) && FedWith(g, w2, k, fs)
    ensures w.db.orders[k].status != w2.db.orders[k].status
  {
    var p, q := ConflictDiverges(fs);
    PermutationFacts(fs, p);
    PermutationFacts(fs, q);
    FlipsCounted(fs);
    FlipsCounted(p);
    FlipsCounted(q);
    hide Reachable, Conflicting, AllLegal, OneSync, ValidBiz, Spare;
    w := EveryHistoryHappens(g, k, bizs, p);
    w2 := EveryHistoryHappens(g, k, bizs, q);
    StatusIsVerdicts(g, w, k);
    StatusIsVerdicts(g, w2, k);
  }

  /** In the service the arrival order of the verdicts about an order is irrelevant exactly when no two
      of them conflict. */
  lemma ServiceConfluentIff(g: Config, k: OrderKey, bizs: seq<string>, fs: seq<Feed>)
    requires WellSized(g.cr.audit) && ValidBiz(k.biz) && Spare(bizs, k.biz)
    requires AllLegal(fs) && OneSync(fs) && Flips(fs) <= |bizs|
    ensures (forall w: World, w2: World :: FedWith(g, w, k, fs) && FedWith(g, w2, k, fs) ==>
               w.db.orders[k].status == w2.db.orders[k].status) <==> !Conflicting(fs)
  {
    if Conflicting(fs) {
      var w, w2 := ConflictHappens(g, k, bizs, fs);
    } else {
      forall w: World, w2: World | FedWith(g, w, k, fs) && FedWith(g, w2, k, fs)
        ensures w.db.orders[k].status == w2.db.orders[k].status
      {
        StatusIsVerdicts(g, w, k);
        StatusIsVerdicts(g, w2, k);
        PermutationFacts(fs, SeqAt(w.feeds, k));
        PermutationFacts(fs, SeqAt(w2.feeds, k));
      }
    }
  }

  // ---- a reversal that misses its original --------------------------------------------------

  lemma SettleAccepted(cr: Crypto, d: Tables, k: OrderKey, f: Finalizer)
    requires k in d.orders && d.orders[k].status == ACCEPTED && d.orders[k].finalizedAt.None?
    ensures var d' := Settle(cr, d, k, SUCCEEDED, f).0;
            && k in d'.orders && d'.orders[k].status == SUCCEEDED && d'.idem == d.idem
            && forall j :: j in d.orders && j != k ==> j in d'.orders && d'.orders[j] == d.orders[j]
  {
  }

  lemma SkippedReversal(g: Config, w: World, pid: nat, req: Request, ori: string, v: Verdict)
    requires req.Key() in w.db.orders && req.Idem() in w.db.idem && w.db.orders[req.Key()].status == SUCCEEDED
    ensures var w' := CommitStep(g, w, pid, req, ReversalOf(ori), v, 0);
            && w'.db.orders == w.db.orders && w'.inputs == w.inputs
            && Recorded(w'.db, req.Idem(), FinalResponse(v, SUCCEEDED, false, false))
  {
  }

  lemma FreshNumber(g: Config, w: World, req: Request)
    requires Reachable(g, w) && req.Key() !in w.db.orders
    ensures Register(g.cr, w.db, req).1.Fresh?
  {
    ReachableOk(g, w);
    TablesAreOk(g, w);
  }

  /** A reversal whose order a callback settles just before it commits. */
  lemma OvertakenReversal(g: Config, w: World, rvsl: Request, ori: OrderKey, ik: InboxKey) returns (evs: seq<Event>)
    requires 2 !in w.procs && 1 in w.procs && w.procs[1] == HasReply(rvsl, ReversalOf(ori.biz), Returned(EMPTY_DATA))
    requires ik !in w.inbox && ik.tenant == rvsl.tenant && rvsl.biz != ""
    requires rvsl.Key() in w.db.orders && rvsl.Idem() in w.db.idem && ori in w.db.orders && ori != rvsl.Key()
    requires w.db.orders[rvsl.Key()].status == ACCEPTED && w.db.orders[rvsl.Key()].finalizedAt.None?
    ensures var w' := Run(g, w, evs);
            && ori in w'.db.orders && w'.db.orders[ori] == w.db.orders[ori]
            && rvsl.Key() in w'.db.orders && w'.db.orders[rvsl.Key()].status == SUCCEEDED
            && Recorded(w'.db, rvsl.Idem(), FinalResponse(ClassifyReversal(Returned(EMPTY_DATA)).value, SUCCEEDED, false, false))
  {
    var first := CallbackPasses(g, w, 2, ik, rvsl.Key(), SUCCEEDED);
    var w1 := Run(g, w, first);
    SettleAccepted(g.cr, w.db, rvsl.Key(), Finalizer(CALLBACK, "gateway", "", 0));
    evs := first + [Commit(1, 0)];
    Service.RunConcat(g, w, first, [Commit(1, 0)]);
    Service.CommitShape(g, w1, 1, rvsl, ReversalOf(ori.biz), Returned(EMPTY_DATA), 0);
    hide Run, Settle, CommitStep, FinalResponse;
    SkippedReversal(g, w1, 1, rvsl, ori.biz, ClassifyReversal(Returned(EMPTY_DATA)).value);
  }

  /** A SUCCEEDED order, and a reversal of it that wedap has accepted. */
  lemma AcceptedReversal(g: Config, tenant: string, ori: string, biz: string) returns (w: World)
    requires WellSized(g.cr.audit) && ValidBiz(ori) && ValidBiz(biz) && ori != biz
    ensures var rvsl, k := Sample(tenant, biz), OrderKey(tenant, ori);
            && Reachable(g, w)
            && 2 !in w.procs && 1 in w.procs && w.procs[1] == HasReply(rvsl, ReversalOf(ori), Returned(EMPTY_DATA))
            && CallbackId(tenant, 1) !in w.inbox
            && k in w.db.orders && w.db.orders[k].status == SUCCEEDED
            && rvsl.Key() in w.db.orders && rvsl.Idem() in w.db.idem
            && w.db.orders[rvsl.Key()].status == ACCEPTED && w.db.orders[rvsl.Key()].finalizedAt.None?
  {
    var rvsl, k := Sample(tenant, biz), OrderKey(tenant, ori);
    var fs := [Sync(SUCCEEDED)];
    assert fs[..0] == [] && [biz][0] == biz;
    var w1 := BuildStage(g, Sample(tenant, ori), [biz], fs);
    assert |CallbackId(tenant, 1).requestId| == 1;
    hide Reachable, ValidBiz, Register, Run;
    StatusIsVerdicts(g, w1, k);
    assert rvsl.Key() !in w1.db.orders;
    FreshNumber(g, w1, rvsl);
    var evs := ReversalAnswered(g, w1, 1, rvsl, ori);
    w := Run(g, w1, evs);
    ReachableGoesOn(g, w1, evs);
    RegisterEffect(g.cr, w1.db, rvsl);
  }

  /** wedap accepts the reversal of a SUCCEEDED order, but a callback settles the reversal order before
      it commits: it replies success, and the original stays SUCCEEDED. */
  lemma ReversalCanMissItsOriginal(g: Config, tenant: string, ori: string, biz: string) returns (w: World, r: Response)
    requires WellSized(g.cr.audit) && ValidBiz(ori) && ValidBiz(biz) && ori != biz
    ensures Reachable(g, w)
    ensures ReversalAnswer(OrderKey(tenant, biz), OrderKey(tenant, ori), Returned(EMPTY_DATA)) in w.inputs
    ensures OrderKey(tenant, ori) in w.db.orders && w.db.orders[OrderKey(tenant, ori)].status == SUCCEEDED
    ensures OrderKey(tenant, biz) in w.db.orders && w.db.orders[OrderKey(tenant, biz)].status == SUCCEEDED
    ensures Recorded(w.db, Sample(tenant, biz).Idem(), r)
    ensures r.orderStatus == Some(SUCCEEDED) && r.typed.outcome == None
  {
    var rvsl, k := Sample(tenant, biz), OrderKey(tenant, ori);
    NonEmptyBiz(rvsl);
    var w1 := AcceptedReversal(g, tenant, ori, biz);
    AnswerWasHeard(g, w1, 1);
    hide Reachable, ValidBiz, Run;
    var evs := OvertakenReversal(g, w1, rvsl, k, CallbackId(tenant, 1));
    w := Run(g, w1, evs);
    ReachableGoesOn(g, w1, evs);
    RunKeepsInputs(g, w1, evs);
    r := FinalResponse(ClassifyReversal(Returned(EMPTY_DATA)).value, SUCCEEDED, false, false);
  }

  lemma AnswerWasHeard(g: Config, w: World, pid: nat)
    requires Reachable(g, w) && pid in w.procs && w.procs[pid].HasReply?
    ensures Heard(w.procs[pid].req, w.procs[pid].kind, w.procs[pid].call) in w.inputs
  {
    ReachableOk(g, w);
    ProcIsOk(g, w, pid);
  }

  // ---- a reversal of itself -----------------------------------------------------------------

  lemma SelfReversalReply(cr: Crypto, d: Tables, req: Request) returns (r: Response)
    requires req.Key() in d.orders && req.Idem() in d.idem && d.orders[req.Key()].status == ACCEPTED
    ensures var v := ClassifyReversal(Returned(EMPTY_DATA)).value;
            var (d', out) := CommitReversal(cr, d, req, req.biz, v, 0);
            && out == Some(r) && r.typed.outcome == Some(UNKNOWN)
            && d'.orders[req.Key()].status == REVERSED
            && d'.trail[req.Key()] == SeqAt(d.trail, req.Key()) + [SUCCEEDED, REVERSED]
  {
    var v := ClassifyReversal(Returned(EMPTY_DATA)).value;
    SelfReversal(cr, d, req, v, 0);
    hide CommitReversal;
    r := CommitReversal(cr, d, req, req.biz, v, 0).1.value;
  }

  lemma FirstRegisters(cr: Crypto, req: Request)
    ensures var (d, early) := Register(cr, FRESH.db, req);
            && early.Fresh? && req.Key() in d.orders && req.Idem() in d.idem
            && d.orders[req.Key()].status == ACCEPTED && SeqAt(d.trail, req.Key()) == [ACCEPTED]
  {
  }

  lemma ReversalResult(cr: Crypto, d: Tables, req: Request, ori: string)
    ensures Service.SubmitResult(cr, d, req, ReversalOf(ori), Returned(EMPTY_DATA), 0) ==
            CommitReversal(cr, Register(cr, d, req).0, req, ori, ClassifyReversal(Returned(EMPTY_DATA)).value, 0)
  {
    hide Register, CommitReversal;
  }

  lemma SelfReversalTables(cr: Crypto, req: Request) returns (r: Response)
    ensures var d := Service.SubmitResult(cr, FRESH.db, req, ReversalOf(req.biz), Returned(EMPTY_DATA), 0).0;
            && req.Key() in d.orders && d.orders[req.Key()].status == REVERSED
            && SeqAt(d.trail, req.Key()) == [ACCEPTED, SUCCEEDED, REVERSED]
            && Recorded(d, req.Idem(), r) && r.typed.outcome == Some(UNKNOWN)
  {
    FirstRegisters(cr, req);
    ReversalResult(cr, FRESH.db, req, req.biz);
    hide Register, Service.SubmitResult;
    var d := Register(cr, FRESH.db, req).0;
    r := SelfReversalReply(cr, d, req);
    CommitRecords(cr, d, req, req.biz, ClassifyReversal(Returned(EMPTY_DATA)).value);
    hide CommitReversal;
  }

  lemma CommitRecords(cr: Crypto, d: Tables, req: Request, ori: string, v: Verdict)
    requires req.Key() in d.orders && req.Idem() in d.idem
    ensures var (d', r) := CommitReversal(cr, d, req, ori, v, 0);
            && r.Some? && Recorded(d', req.Idem(), r.value)
            && req.Key() in d'.orders && (req.Key() in d'.trail <== req.Key() in d.trail)
  {
  }

  /** A first request that reverses itself, run to its end. */
  lemma SelfReversalHappens(g: Config, tenant: string, biz: string) returns (w: World, r: Response)
    requires WellSized(g.cr.audit) && ValidBiz(biz)
    ensures Reachable(g, w)
    ensures var k := OrderKey(tenant, biz);
            k in w.db.orders && w.db.orders[k].status == REVERSED && SeqAt(w.db.trail, k) == [ACCEPTED, SUCCEEDED, REVERSED]
    ensures Recorded(w.db, Sample(tenant, biz).Idem(), r) && r.typed.outcome == Some(UNKNOWN)
  {
    var req, kind, call := Sample(tenant, biz), ReversalOf(biz), Returned(EMPTY_DATA);
    var evs := Service.SubmitEvents(0, req, kind, call, 0);
    FreshIsReachable(g);
    ReachableGoesOn(g, FRESH, evs);
    FirstRegisters(g.cr, req);
    hide Run, Reachable, Register, Service.SubmitEvents, Service.SubmitResult, ClassifyReversal, ValidBiz;
    w := Run(g, FRESH, evs);
    Service.SubmitIsRun(g, FRESH, 0, req, kind, call, 0);
    r := SelfReversalTables(g.cr, req);
  }
}
