/** One order as a machine over the verdicts it is fed, and when their arrival order matters. */
module Confluence {
  import opened States

  /** What can be fed to an order: the result of its own submit, a terminal status reported by a
      callback or a status query, and the flip made by a reversal of it. */
  datatype Feed = Sync(status: OrderStatus) | Report(status: OrderStatus) | Flip

  predicate Legal(f: Feed) {
    match f
    case Sync(s) => s in {SUBMITTED, RESULT_UNKNOWN, SUCCEEDED, FAILED, REVERSED}
    case Report(s) => IsTerminal(s)
    case Flip => true
  }

  function Apply(st: OrderStatus, f: Feed): OrderStatus {
    match f
    case Sync(s) => if st == ACCEPTED then s else st
    case Report(s) =>
      if IsAbsorbing(st) then (if st == SUCCEEDED && s == REVERSED then REVERSED else st)
      else if MayMove(st, s) then s else st
    case Flip => if MayMove(st, REVERSED) then REVERSED else st
  }

  function Final(fs: seq<Feed>): OrderStatus {
    if fs == [] then ACCEPTED else Apply(Final(fs[..|fs| - 1]), fs[|fs| - 1])
  }

  lemma FinalAppend(fs: seq<Feed>, f: Feed)
    ensures Final(fs + [f]) == Apply(Final(fs), f)
  {
    assert (fs + [f])[..|fs|] == fs;
  }

  /** An order is submitted once. */
  ghost predicate OneSync(fs: seq<Feed>) {
    forall i, j :: 0 <= i < j < |fs| ==> !(fs[i].Sync? && fs[j].Sync?)
  }

  ghost predicate AllLegal(fs: seq<Feed>) {
    forall i :: 0 <= i < |fs| ==> Legal(fs[i])
  }

  predicate SaysFailed(fs: seq<Feed>) {
    Sync(FAILED) in fs || Report(FAILED) in fs
  }

  predicate SaysSucceeded(fs: seq<Feed>) {
    Sync(SUCCEEDED) in fs || Report(SUCCEEDED) in fs
  }

  predicate SaysReversedLater(fs: seq<Feed>) {
    Report(REVERSED) in fs || Flip in fs
  }

  predicate AcksReversed(fs: seq<Feed>) {
    Sync(REVERSED) in fs
  }

  /** Two verdicts that cannot both be honoured: FAILED next to any other terminal verdict, or a
      synchronous REVERSED next to a reported SUCCEEDED that nobody else corrects. */
  predicate Conflicting(fs: seq<Feed>) {
    || (SaysFailed(fs) && (SaysSucceeded(fs) || SaysReversedLater(fs) || AcksReversed(fs)))
    || (AcksReversed(fs) && SaysSucceeded(fs) && !SaysReversedLater(fs))
  }

  /** The join of the verdicts in ACCEPTED < SUBMITTED, RESULT_UNKNOWN < SUCCEEDED < REVERSED, with
      FAILED on its own. */
  function Join(fs: seq<Feed>): OrderStatus {
    if SaysReversedLater(fs) || AcksReversed(fs) then REVERSED
    else if SaysSucceeded(fs) then SUCCEEDED
    else if SaysFailed(fs) then FAILED
    else if Sync(SUBMITTED) in fs then SUBMITTED
    else if Sync(RESULT_UNKNOWN) in fs then RESULT_UNKNOWN
    else ACCEPTED
  }

  predicate Said(fs: seq<Feed>, s: OrderStatus) {
    Sync(s) in fs || Report(s) in fs || (s == REVERSED && Flip in fs)
  }

  /** An order is never in a status nobody reported. */
  lemma {:induction false} FinalWasSaid(fs: seq<Feed>)
    ensures Final(fs) == ACCEPTED || Said(fs, Final(fs))
  {
    if fs != [] {
      FinalWasSaid(fs[..|fs| - 1]);
      assert fs == fs[..|fs| - 1] + [fs[|fs| - 1]];
    }
  }

  /** A synchronous result moves the order off ACCEPTED, and a terminal one makes it terminal. */
  lemma {:induction false} FinalMovesOn(fs: seq<Feed>, f: Feed)
    requires AllLegal(fs) && f in fs
    ensures Final(fs) != ACCEPTED
    ensures (f.Sync? ==> IsTerminal(f.status)) && OneSync(fs) ==> IsTerminal(Final(fs))
  {
    var g, last := fs[..|fs| - 1], fs[|fs| - 1];
    assert fs == g + [last];
    FinalWasSaid(g);
    FinalIsReachable(g);
    if f in g {
      FinalMovesOn(g, f);
    } else if f.Sync? && OneSync(fs) && Final(g) != ACCEPTED {
      NotNonTerminal(g);
    }
  }

  lemma {:induction false} FinalIsReachable(fs: seq<Feed>)
    requires AllLegal(fs)
    ensures Final(fs) in {ACCEPTED, SUBMITTED, RESULT_UNKNOWN, SUCCEEDED, FAILED, REVERSED}
  {
    if fs != [] {
      FinalIsReachable(fs[..|fs| - 1]);
      assert Legal(fs[|fs| - 1]);
    }
  }

  /** Without a synchronous result an order is ACCEPTED or terminal. */
  lemma NotNonTerminal(fs: seq<Feed>)
    requires AllLegal(fs)
    requires forall s :: Sync(s) !in fs
    ensures Final(fs) == ACCEPTED || IsTerminal(Final(fs))
  {
    FinalWasSaid(fs);
  }

  /** Without FAILED, a reported reversal always prevails. */
  lemma {:induction false} ReversalPrevails(fs: seq<Feed>)
    requires AllLegal(fs)
    requires !SaysFailed(fs) && SaysReversedLater(fs)
    ensures Final(fs) == REVERSED
  {
    var g, last := fs[..|fs| - 1], fs[|fs| - 1];
    assert fs == g + [last];
    if SaysReversedLater(g) {
      ReversalPrevails(g);
    } else {
      FinalWasSaid(g);
      FinalIsReachable(g);
    }
  }

  /** Verdicts that do not conflict always add up to their join. */
  lemma FinalIsJoin(fs: seq<Feed>)
    requires AllLegal(fs) && OneSync(fs)
    requires !Conflicting(fs)
    ensures Final(fs) == Join(fs)
  {
    FinalWasSaid(fs);
    FinalIsReachable(fs);
    if SaysReversedLater(fs) {
      ReversalPrevails(fs);
    } else if AcksReversed(fs) || SaysSucceeded(fs) || SaysFailed(fs) {
      var f :| f in fs && (f.Sync? ==> IsTerminal(f.status)) && !f.Flip?;
      FinalMovesOn(fs, f);
    } else if exists s :: Sync(s) in fs {
      var s :| Sync(s) in fs;
      FinalMovesOn(fs, Sync(s));
      OnlySync(fs, Sync(s));
    }
  }

  lemma OnlySync(fs: seq<Feed>, f: Feed)
    requires OneSync(fs) && f in fs && f.Sync?
    ensures forall g :: g in fs && g.Sync? ==> g == f
  {
  }

  function ToFront(fs: seq<Feed>, i: nat): seq<Feed>
    requires i < |fs|
  {
    [fs[i]] + fs[..i] + fs[i + 1..]
  }

  lemma ToFrontPermutes(fs: seq<Feed>, i: nat)
    requires i < |fs|
    ensures multiset(ToFront(fs, i)) == multiset(fs)
  {
    assert fs == fs[..i] + [fs[i]] + fs[i + 1..];
  }

  /** From FAILED and from REVERSED nothing moves; from SUCCEEDED only a report or a flip does. */
  lemma {:induction false} FirstVerdictStands(f: Feed, rest: seq<Feed>)
    ensures Apply(ACCEPTED, f) in {FAILED, REVERSED} ==> Final([f] + rest) == Apply(ACCEPTED, f)
    ensures Apply(ACCEPTED, f) == SUCCEEDED ==> Final([f] + rest) in {SUCCEEDED, REVERSED}
    ensures Apply(ACCEPTED, f) == SUCCEEDED && !SaysReversedLater(rest) ==> Final([f] + rest) == SUCCEEDED
  {
    var all := [f] + rest;
    if rest == [] {
      assert all[..0] == [];
    } else {
      var g := rest[..|rest| - 1];
      assert all[..|all| - 1] == [f] + g;
      assert rest == g + [rest[|rest| - 1]];
      FirstVerdictStands(f, g);
    }
  }

  lemma FrontsDiffer(fs: seq<Feed>, i: nat, j: nat) returns (p: seq<Feed>, q: seq<Feed>)
    requires i < |fs| && j < |fs|
    requires var x, y := Apply(ACCEPTED, fs[i]), Apply(ACCEPTED, fs[j]);
             || (x == FAILED && y in {SUCCEEDED, REVERSED})
             || (x == REVERSED && y == SUCCEEDED && !SaysReversedLater(fs))
    ensures multiset(p) == multiset(fs) == multiset(q)
    ensures Final(p) != Final(q)
  {
    p, q := ToFront(fs, i), ToFront(fs, j);
    ToFrontPermutes(fs, i);
    ToFrontPermutes(fs, j);
    var restI, restJ := fs[..i] + fs[i + 1..], fs[..j] + fs[j + 1..];
    assert p == [fs[i]] + restI && q == [fs[j]] + restJ;
    FirstVerdictStands(fs[i], restI);
    FirstVerdictStands(fs[j], restJ);
  }

  /** Conflicting verdicts have two arrival orders that end differently. */
  lemma ConflictDiverges(fs: seq<Feed>) returns (p: seq<Feed>, q: seq<Feed>)
    requires Conflicting(fs)
    ensures multiset(p) == multiset(fs) == multiset(q)
    ensures Final(p) != Final(q)
  {
    var i: nat, j: nat;
    if SaysFailed(fs) {
      i :| i < |fs| && (fs[i] == Sync(FAILED) || fs[i] == Report(FAILED));
      if SaysSucceeded(fs) {
        j :| j < |fs| && (fs[j] == Sync(SUCCEEDED) || fs[j] == Report(SUCCEEDED));
      } else if SaysReversedLater(fs) {
        j :| j < |fs| && (fs[j] == Report(REVERSED) || fs[j] == Flip);
      } else {
        j :| j < |fs| && fs[j] == Sync(REVERSED);
      }
    } else {
      i :| i < |fs| && fs[i] == Sync(REVERSED);
      j :| j < |fs| && (fs[j] == Sync(SUCCEEDED) || fs[j] == Report(SUCCEEDED));
    }
    p, q := FrontsDiffer(fs, i, j);
  }

  lemma PermutationFacts(fs: seq<Feed>, p: seq<Feed>)
    requires multiset(p) == multiset(fs)
    requires AllLegal(fs) && OneSync(fs)
    ensures AllLegal(p) && OneSync(p)
    ensures Join(p) == Join(fs) && Conflicting(p) == Conflicting(fs)
  {
    assert forall f :: f in p <==> f in multiset(p);
    assert forall f :: f in fs <==> f in multiset(fs);
    forall i | 0 <= i < |p| ensures Legal(p[i]) {
      assert p[i] in multiset(p);
    }
    forall i, j | 0 <= i < j < |p| ensures !(p[i].Sync? && p[j].Sync?) {
      if p[i].Sync? && p[j].Sync? {
        TwoSyncs(fs, p, i, j);
        assert false;
      }
    }
  }

  function SyncsIn(fs: seq<Feed>): multiset<Feed> {
    if fs == [] then multiset{}
    else SyncsIn(fs[..|fs| - 1]) + (if fs[|fs| - 1].Sync? then multiset{fs[|fs| - 1]} else multiset{})
  }

  lemma {:induction false} SyncsInIsFilter(fs: seq<Feed>, f: Feed)
    ensures SyncsIn(fs)[f] == if f.Sync? then multiset(fs)[f] else 0
  {
    if fs != [] {
      SyncsInIsFilter(fs[..|fs| - 1], f);
      assert fs == fs[..|fs| - 1] + [fs[|fs| - 1]];
    }
  }

  lemma {:induction false} OneSyncCounts(fs: seq<Feed>)
    ensures OneSync(fs) <==> |SyncsIn(fs)| <= 1
    ensures |SyncsIn(fs)| == 0 <==> (forall i :: 0 <= i < |fs| ==> !fs[i].Sync?)
  {
    if fs != [] {
      var g := fs[..|fs| - 1];
      OneSyncCounts(g);
      assert forall i :: 0 <= i < |g| ==> g[i] == fs[i];
      if fs[|fs| - 1].Sync? && !(forall i :: 0 <= i < |g| ==> !g[i].Sync?) {
        var i :| 0 <= i < |g| && g[i].Sync?;
        assert fs[i].Sync? && fs[|fs| - 1].Sync?;
      }
    }
  }

  lemma TwoSyncs(fs: seq<Feed>, p: seq<Feed>, i: nat, j: nat)
    requires multiset(p) == multiset(fs)
    requires i < j < |p| && p[i].Sync? && p[j].Sync?
    ensures !OneSync(fs)
  {
    forall f ensures SyncsIn(p)[f] == SyncsIn(fs)[f] {
      SyncsInIsFilter(p, f);
      SyncsInIsFilter(fs, f);
    }
    assert SyncsIn(p) == SyncsIn(fs);
    OneSyncCounts(p);
    OneSyncCounts(fs);
  }

  /** The arrival order of an order's verdicts is irrelevant exactly when no two of them conflict. */
  lemma ConfluentIff(fs: seq<Feed>)
    requires AllLegal(fs) && OneSync(fs)
    ensures (forall p: seq<Feed> :: multiset(p) == multiset(fs) ==> Final(p) == Final(fs)) <==> !Conflicting(fs)
  {
    if Conflicting(fs) {
      var p, q := ConflictDiverges(fs);
    } else {
      forall p: seq<Feed> | multiset(p) == multiset(fs) ensures Final(p) == Final(fs) {
        PermutationFacts(fs, p);
        FinalIsJoin(p);
        FinalIsJoin(fs);
      }
    }
  }

  /** Repeats do not matter either: two histories with the same verdicts, whatever their order and
      multiplicity, end alike when nothing conflicts. */
  lemma SameVerdictsSameEnd(fs: seq<Feed>, gs: seq<Feed>)
    requires AllLegal(fs) && OneSync(fs) && AllLegal(gs) && OneSync(gs)
    requires forall f :: f in fs <==> f in gs
    requires !Conflicting(fs)
    ensures Final(fs) == Final(gs) == Join(fs)
  {
    FinalIsJoin(fs);
    FinalIsJoin(gs);
  }
}
