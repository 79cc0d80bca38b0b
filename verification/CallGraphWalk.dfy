/** The bounded depth-first walk of app/core/openapi_status_scan.py over the call graph. */
module CallGraphWalk {
  import opened Prelude

  /** (module, function) */
  type Fun = (string, string)

  /** A raise or a call in a body, with the status codes read off it; `target` is the in-repo function
      the call resolves to. */
  datatype Child = Raise(codes: set<int>) | Call(codes: set<int>, target: Option<Fun>)

  /** Bodies by function, each in the order it is walked; a name that is not found has none. */
  type Program = map<Fun, seq<Child>>

  const MAX_CALL_DEPTH: nat := 6

  function Body(p: Program, f: Fun): seq<Child> {
    if f in p then p[f] else []
  }

  predicate Callee(children: seq<Child>, g: Fun) {
    exists i :: 0 <= i < |children| && children[i].Call? && children[i].target == Some(g)
  }

  predicate HasCode(children: seq<Child>, c: int) {
    exists i :: 0 <= i < |children| && c in children[i].codes
  }

  // ---- the walk -----------------------------------------------------------------------------

  /** `cut` is a history: the functions a call to which was refused for its depth. */
  datatype State = State(seen: set<Fun>, codes: set<int>, cut: set<Fun>)

  function Walk(p: Program, f: Fun, depth: nat, s: State): State
    requires depth <= MAX_CALL_DEPTH + 1
    decreases MAX_CALL_DEPTH + 1 - depth, |Body(p, f)| + 1
  {
    if f in s.seen then s
    else if depth > MAX_CALL_DEPTH then s.(cut := s.cut + {f})
    else WalkBody(p, Body(p, f), depth, s.(seen := s.seen + {f}))
  }

  function WalkBody(p: Program, children: seq<Child>, depth: nat, s: State): State
    requires depth <= MAX_CALL_DEPTH
    decreases MAX_CALL_DEPTH + 1 - depth, |children|
  {
    if children == [] then s
    else WalkChild(p, children[|children| - 1], depth, WalkBody(p, children[..|children| - 1], depth, s))
  }

  function WalkChild(p: Program, child: Child, depth: nat, s: State): State
    requires depth <= MAX_CALL_DEPTH
    decreases MAX_CALL_DEPTH + 1 - depth, 0
  {
    var s1 := s.(codes := s.codes + child.codes);
    if child.Call? && child.target.Some? then Walk(p, child.target.value, depth + 1, s1) else s1
  }

  class Scan {
    const program: Program
    var seen: set<Fun>
    var codes: set<int>
    ghost var cut: set<Fun>

    ghost function Now(): State
      reads this
    {
      State(seen, codes, cut)
    }

    constructor (p: Program)
      ensures program == p && Now() == State({}, {}, {})
    {
      program := p;
      seen, codes, cut := {}, {}, {};
    }

    /** `_walk_function` */
    method WalkFunction(f: Fun, depth: nat)
      requires depth <= MAX_CALL_DEPTH + 1
      modifies this
      ensures Now() == Walk(program, f, depth, old(Now()))
      decreases MAX_CALL_DEPTH + 1 - depth
    {
      if f in seen || depth > MAX_CALL_DEPTH {
        if f !in seen {
          cut := cut + {f};
        }
        return;
      }
      seen := seen + {f};
      if f !in program {
        return;
      }
      var body := program[f];
      ghost var start := Now();
      var i := 0;
      while i < |body|
        invariant 0 <= i <= |body|
        invariant Now() == WalkBody(program, body[..i], depth, start)
      {
        var child := body[i];
        assert body[..i + 1][..i] == body[..i];
        codes := codes + child.codes;
        if child.Call? && child.target.Some? {
          WalkFunction(child.target.value, depth + 1);
        }
        i := i + 1;
      }
      assert body[..i] == body;
    }

    /** `scan_route` */
    static method ScanRoute(p: Program, f: Fun) returns (codes: set<int>)
      ensures codes == Walk(p, f, 0, State({}, {}, {})).codes
    {
      var scan := new Scan(p);
      scan.WalkFunction(f, 0);
      codes := scan.codes;
    }
  }

  // ---- reachability -------------------------------------------------------------------------

  /** `g` is reached from `f` in at most `n` calls. */
  ghost predicate Reaches(p: Program, f: Fun, g: Fun, n: nat)
    decreases n
  {
    g == f || (n > 0 && exists h :: Callee(Body(p, f), h) && Reaches(p, h, g, n - 1))
  }

  ghost predicate Reachable(p: Program, f: Fun, g: Fun) {
    exists n: nat :: Reaches(p, f, g, n)
  }

  lemma {:induction false} ReachesMore(p: Program, f: Fun, g: Fun, n: nat, m: nat)
    requires Reaches(p, f, g, n) && n <= m
    ensures Reaches(p, f, g, m)
    decreases n
  {
    if g != f {
      var h :| Callee(Body(p, f), h) && Reaches(p, h, g, n - 1);
      ReachesMore(p, h, g, n - 1, m - 1);
    }
  }

  /** A set closed under calls holds all that is reached from it. */
  lemma {:induction false} ClosedHoldsReachable(p: Program, s: set<Fun>, f: Fun, g: Fun, n: nat)
    requires f in s && Reaches(p, f, g, n)
    requires forall x, y :: x in s && Callee(Body(p, x), y) ==> y in s
    ensures g in s
    decreases n
  {
    if g != f {
      var h :| Callee(Body(p, f), h) && Reaches(p, h, g, n - 1);
      ClosedHoldsReachable(p, s, h, g, n - 1);
    }
  }

  // ---- what a walk does ---------------------------------------------------------------------

  /** From `s` to `t` only functions within `n` calls of some call of `from` were visited, every call
      of a newly visited one was followed or refused, and the codes are theirs and those of `from`. */
  ghost predicate Explores(p: Program, s: State, t: State, from: seq<Child>, n: nat) {
    && s.seen <= t.seen && s.cut <= t.cut
    && (forall g :: Callee(from, g) ==> g in t.seen || g in t.cut)
    && (forall g :: g in t.seen && g !in s.seen ==> NearCallee(p, from, g, n))
    && (forall g :: g in t.cut && g !in s.cut ==> NearCallee(p, from, g, n + 1))
    && (forall x, y :: x in t.seen && x !in s.seen && Callee(Body(p, x), y) ==> y in t.seen || y in t.cut)
    && (forall c :: c in t.codes <==>
          c in s.codes || HasCode(from, c) || exists g :: g in t.seen && g !in s.seen && HasCode(Body(p, g), c))
  }

  /** Within `n` calls counting the one in `from`. */
  ghost predicate NearCallee(p: Program, from: seq<Child>, g: Fun, n: nat) {
    n > 0 && exists h :: Callee(from, h) && Reaches(p, h, g, n - 1)
  }

  lemma {:induction false} WalkExplores(p: Program, f: Fun, depth: nat, s: State)
    requires depth <= MAX_CALL_DEPTH + 1
    ensures Explores(p, s, Walk(p, f, depth, s), [Call({}, Some(f))], MAX_CALL_DEPTH + 1 - depth)
    decreases MAX_CALL_DEPTH + 1 - depth, |Body(p, f)| + 1
  {
    var from := [Call({}, Some(f))];
    assert from[0].target == Some(f);
    assert Callee(from, f);
    var t := Walk(p, f, depth, s);
    if f !in s.seen && depth <= MAX_CALL_DEPTH {
      var s1 := s.(seen := s.seen + {f});
      BodyExplores(p, Body(p, f), depth, s1);
      forall g, n: nat | NearCallee(p, Body(p, f), g, n) ensures NearCallee(p, from, g, n + 1) {
        assert Reaches(p, f, g, n);
      }
    }
  }

  lemma {:induction false} BodyExplores(p: Program, children: seq<Child>, depth: nat, s: State)
    requires depth <= MAX_CALL_DEPTH
    ensures Explores(p, s, WalkBody(p, children, depth, s), children, MAX_CALL_DEPTH - depth)
    decreases MAX_CALL_DEPTH + 1 - depth, |children|
  {
    if children != [] {
      var n := |children| - 1;
      BodyExplores(p, children[..n], depth, s);
      ChildExplores(p, children[n], depth, WalkBody(p, children[..n], depth, s));
      ExploresBoth(p, s, WalkBody(p, children[..n], depth, s), WalkBody(p, children, depth, s), children[..n], [children[n]], MAX_CALL_DEPTH - depth);
      assert children == children[..n] + [children[n]];
    }
  }

  lemma {:induction false} ChildExplores(p: Program, child: Child, depth: nat, s: State)
    requires depth <= MAX_CALL_DEPTH
    ensures Explores(p, s, WalkChild(p, child, depth, s), [child], MAX_CALL_DEPTH - depth)
    decreases MAX_CALL_DEPTH + 1 - depth, 0
  {
    Single(child);
    if child.Call? && child.target.Some? {
      Single(Call({}, child.target));
      WalkExplores(p, child.target.value, depth + 1, s.(codes := s.codes + child.codes));
      forall g, m: nat | NearCallee(p, [Call({}, child.target)], g, m) ensures NearCallee(p, [child], g, m) {
      }
    }
  }

  lemma Single(child: Child)
    ensures forall g :: Callee([child], g) <==> child.Call? && child.target == Some(g)
    ensures forall c :: HasCode([child], c) <==> c in child.codes
  {
    assert [child][0] == child;
  }

  lemma Concat(a: seq<Child>, b: seq<Child>)
    ensures forall g :: Callee(a + b, g) <==> Callee(a, g) || Callee(b, g)
    ensures forall c :: HasCode(a + b, c) <==> HasCode(a, c) || HasCode(b, c)
  {
    var s := a + b;
    assert forall i :: 0 <= i < |a| ==> s[i] == a[i];
    assert forall i :: 0 <= i < |b| ==> s[|a| + i] == b[i];
  }

  lemma NearConcat(p: Program, a: seq<Child>, b: seq<Child>, g: Fun, n: nat)
    requires NearCallee(p, a, g, n) || NearCallee(p, b, g, n)
    ensures NearCallee(p, a + b, g, n)
  {
    Concat(a, b);
  }

  /** One walk after another. */
  lemma ExploresBoth(p: Program, s: State, t: State, u: State, a: seq<Child>, b: seq<Child>, n: nat)
    requires Explores(p, s, t, a, n) && Explores(p, t, u, b, n)
    ensures Explores(p, s, u, a + b, n)
  {
    Concat(a, b);
    forall g, m: nat | NearCallee(p, a, g, m) || NearCallee(p, b, g, m) ensures NearCallee(p, a + b, g, m) {
      NearConcat(p, a, b, g, m);
    }
  }

  // ---- what a scan finds --------------------------------------------------------------------

  const START := State({}, {}, {})

  /** A scan visits only functions within MAX_CALL_DEPTH calls of the handler, refuses only ones
      within one more, and reports exactly the codes of the functions it visited. */
  lemma ScanStaysNear(p: Program, f: Fun)
    ensures var t := Walk(p, f, 0, START);
            && f in t.seen
            && (forall g :: g in t.seen ==> Reaches(p, f, g, MAX_CALL_DEPTH))
            && (forall g :: g in t.cut ==> Reaches(p, f, g, MAX_CALL_DEPTH + 1))
            && (forall x, y :: x in t.seen && Callee(Body(p, x), y) ==> y in t.seen || y in t.cut)
            && (forall c :: c in t.codes <==> exists g :: g in t.seen && HasCode(Body(p, g), c))
  {
    WalkExplores(p, f, 0, START);
    Single(Call({}, Some(f)));
    VisitsStart(p, f);
  }

  lemma VisitsStart(p: Program, f: Fun)
    ensures f in Walk(p, f, 0, START).seen
  {
    assert START.seen + {f} == {f};
    BodyExplores(p, Body(p, f), 0, START.(seen := {f}));
  }

  /** The scan visits all that is reachable, and so reports all its codes, exactly when every
      function refused for its depth was visited by another way. */
  lemma CompleteIffCutsSeen(p: Program, f: Fun)
    ensures var t := Walk(p, f, 0, START);
            t.cut <= t.seen <==> forall g :: Reachable(p, f, g) <==> g in t.seen
  {
    var t := Walk(p, f, 0, START);
    ScanStaysNear(p, f);
    if t.cut <= t.seen {
      forall g ensures Reachable(p, f, g) <==> g in t.seen {
        if Reachable(p, f, g) {
          var n: nat :| Reaches(p, f, g, n);
          ClosedHoldsReachable(p, t.seen, f, g, n);
        }
      }
    }
  }

  /** Then the codes are those of all reachable functions. */
  lemma CompleteCodes(p: Program, f: Fun, c: int)
    requires var t := Walk(p, f, 0, START); t.cut <= t.seen
    ensures c in Walk(p, f, 0, START).codes <==> exists g :: Reachable(p, f, g) && HasCode(Body(p, g), c)
  {
    ScanStaysNear(p, f);
    CompleteIffCutsSeen(p, f);
  }

  // ---- which graphs are scanned completely --------------------------------------------------

  /** Each function of the chain calls the next. */
  predicate IsChain(p: Program, c: seq<Fun>) {
    forall i :: 0 < i < |c| ==> Callee(Body(p, c[i - 1]), c[i])
  }

  /** A chain of calls from `root` that comes back to no function. */
  ghost predicate SimpleChain(p: Program, root: Fun, c: seq<Fun>) {
    c != [] && c[0] == root && NoDuplicates(c) && IsChain(p, c)
  }

  /** Every newly refused function ends a simple chain that is one call too long. */
  ghost predicate CutsAreDeep(p: Program, root: Fun, s: State, t: State) {
    forall g :: g in t.cut && g !in s.cut ==>
      exists c :: SimpleChain(p, root, c) && |c| == MAX_CALL_DEPTH + 2 && c[|c| - 1] == g
  }

  /** The functions being walked, from the handler down, and what the last of them may call. */
  ghost predicate OnStack(p: Program, root: Fun, stack: seq<Fun>, s: State) {
    && SimpleChain(p, root, stack)
    && forall i :: 0 <= i < |stack| ==> stack[i] in s.seen
  }

  lemma StackGrows(p: Program, root: Fun, stack: seq<Fun>, f: Fun, s: State)
    requires OnStack(p, root, stack, s)
    requires Callee(Body(p, stack[|stack| - 1]), f) && f !in s.seen
    ensures SimpleChain(p, root, stack + [f])
  {
  }

  lemma {:induction false} WalkCutsDeep(p: Program, root: Fun, f: Fun, s: State, stack: seq<Fun>)
    requires OnStack(p, root, stack, s) && |stack| <= MAX_CALL_DEPTH + 1
    requires Callee(Body(p, stack[|stack| - 1]), f)
    ensures CutsAreDeep(p, root, s, Walk(p, f, |stack|, s))
    decreases MAX_CALL_DEPTH + 1 - |stack|, |Body(p, f)| + 1
  {
    if f !in s.seen {
      StackGrows(p, root, stack, f, s);
      if |stack| <= MAX_CALL_DEPTH {
        BodyCutsDeep(p, root, Body(p, f), s.(seen := s.seen + {f}), stack + [f]);
      }
    }
  }

  lemma {:induction false} BodyCutsDeep(p: Program, root: Fun, children: seq<Child>, s: State, stack: seq<Fun>)
    requires OnStack(p, root, stack, s) && |stack| <= MAX_CALL_DEPTH + 1
    requires children <= Body(p, stack[|stack| - 1])
    ensures CutsAreDeep(p, root, s, WalkBody(p, children, |stack| - 1, s))
    decreases MAX_CALL_DEPTH + 2 - |stack|, |children|
  {
    if children != [] {
      var n := |children| - 1;
      var child := children[n];
      var t := WalkBody(p, children[..n], |stack| - 1, s);
      BodyCutsDeep(p, root, children[..n], s, stack);
      BodyExplores(p, children[..n], |stack| - 1, s);
      assert WalkBody(p, children, |stack| - 1, s) == WalkChild(p, child, |stack| - 1, t);
      assert CutsAreDeep(p, root, s, t);
      if child.Call? && child.target.Some? {
        assert Body(p, stack[|stack| - 1])[n] == child;
        var t1 := t.(codes := t.codes + child.codes);
        WalkCutsDeep(p, root, child.target.value, t1, stack);
        assert CutsAreDeep(p, root, t1, Walk(p, child.target.value, |stack|, t1));
        assert WalkChild(p, child, |stack| - 1, t) == Walk(p, child.target.value, |stack|, t1);
      }
    }
  }

  /** The graph below `f` is shallow: no simple chain of calls from it is longer than the walk follows. */
  ghost predicate Shallow(p: Program, f: Fun) {
    forall c :: SimpleChain(p, f, c) ==> |c| <= MAX_CALL_DEPTH + 1
  }

  /** A shallow graph is scanned completely, in whatever order its bodies make their calls: nothing is
      refused, exactly the reachable functions are visited, and exactly their codes are reported. */
  lemma ShallowIsComplete(p: Program, f: Fun)
    requires Shallow(p, f)
    ensures var t := Walk(p, f, 0, START);
            && t.cut == {}
            && (forall g :: Reachable(p, f, g) <==> g in t.seen)
            && (forall c :: c in t.codes <==> exists g :: Reachable(p, f, g) && HasCode(Body(p, g), c))
  {
    var t := Walk(p, f, 0, START);
    assert START.seen + {f} == {f};
    BodyCutsDeep(p, f, Body(p, f), START.(seen := {f}), [f]);
    assert t.cut == {};
    CompleteIffCutsSeen(p, f);
    forall c ensures c in t.codes <==> exists g :: Reachable(p, f, g) && HasCode(Body(p, g), c) {
      CompleteCodes(p, f, c);
    }
  }

  // ---- beyond shallow graphs ----------------------------------------------------------------

  /** Every function that a chain of calls reaches one call too late is also called by the handler itself. */
  ghost predicate DeepOnesCalled(p: Program, f: Fun) {
    forall c :: SimpleChain(p, f, c) && |c| == MAX_CALL_DEPTH + 2 ==> Callee(Body(p, f), c[MAX_CALL_DEPTH + 1])
  }

  lemma WalkVisits(p: Program, f: Fun, depth: nat, s: State)
    requires depth <= MAX_CALL_DEPTH
    ensures f in Walk(p, f, depth, s).seen
  {
    if f !in s.seen {
      BodyExplores(p, Body(p, f), depth, s.(seen := s.seen + {f}));
    }
  }

  lemma {:induction false} BodyVisits(p: Program, children: seq<Child>, depth: nat, s: State, g: Fun)
    requires depth < MAX_CALL_DEPTH && Callee(children, g)
    ensures g in WalkBody(p, children, depth, s).seen
    decreases |children|
  {
    var n := |children| - 1;
    var s1 := WalkBody(p, children[..n], depth, s);
    assert children == children[..n] + [children[n]];
    Concat(children[..n], [children[n]]);
    if Callee(children[..n], g) {
      BodyVisits(p, children[..n], depth, s, g);
      ChildExplores(p, children[n], depth, s1);
    } else {
      Single(children[n]);
      WalkVisits(p, g, depth + 1, s1.(codes := s1.codes + children[n].codes));
    }
  }

  // ---- every order of calls -----------------------------------------------------------------

  /** The same bodies, with their raises and calls in another order. */
  ghost predicate Reordered(p: Program, q: Program) {
    p.Keys == q.Keys && forall f :: f in p ==> multiset(p[f]) == multiset(q[f])
  }

  lemma SameCallees(a: seq<Child>, b: seq<Child>, g: Fun)
    requires multiset(a) == multiset(b) && Callee(a, g)
    ensures Callee(b, g)
  {
    var i :| 0 <= i < |a| && a[i].Call? && a[i].target == Some(g);
    assert a[i] in multiset(b);
  }

  lemma ReorderedShallow(p: Program, q: Program, f: Fun)
    requires Reordered(p, q) && Shallow(p, f)
    ensures Shallow(q, f)
  {
    forall c | SimpleChain(q, f, c) ensures |c| <= MAX_CALL_DEPTH + 1 {
      forall i | 0 < i < |c| ensures Callee(Body(p, c[i - 1]), c[i]) {
        SameCallees(Body(q, c[i - 1]), Body(p, c[i - 1]), c[i]);
      }
      assert SimpleChain(p, f, c);
    }
  }

  /** The first thing in the body of the `i`th function of the chain is the call of the next. */
  predicate CallsNext(q: Program, c: seq<Fun>, i: nat)
    requires i + 1 < |c|
  {
    var body := Body(q, c[i]);
    body != [] && body[0].Call? && body[0].target == Some(c[i + 1])
  }

  ghost predicate CallsFirst(q: Program, c: seq<Fun>) {
    forall i: nat :: i < |c| - 1 ==> CallsNext(q, c, i)
  }

  ghost function ToFront(body: seq<Child>, g: Fun): (r: seq<Child>)
    requires Callee(body, g)
    ensures multiset(r) == multiset(body)
    ensures r != [] && r[0].Call? && r[0].target == Some(g)
  {
    var i: nat :| i < |body| && body[i].Call? && body[i].target == Some(g);
    assert body == body[..i] + [body[i]] + body[i + 1..];
    [body[i]] + body[..i] + body[i + 1..]
  }

  /** The calls of a chain can be moved to the front of their bodies. */
  lemma {:induction false} Straighten(p: Program, c: seq<Fun>) returns (q: Program)
    requires IsChain(p, c) && NoDuplicates(c)
    ensures Reordered(p, q) && CallsFirst(q, c)
    decreases |c|
  {
    q := p;
    if |c| > 1 {
      var n := |c| - 1;
      var r := Straighten(p, c[..n]);
      assert Callee(Body(p, c[n - 1]), c[n]);
      var last := c[n - 1];
      assert last in p;
      SameCallees(Body(p, last), Body(r, last), c[n]);
      q := r[last := ToFront(r[last], c[n])];
      forall i: nat | i < |c| - 1 ensures CallsNext(q, c, i) {
        if i < n - 1 {
          assert CallsNext(r, c[..n], i);
          assert c[i] != last;
        }
      }
    }
  }

  lemma {:induction false} PrefixCuts(p: Program, children: seq<Child>, n: nat, depth: nat, s: State)
    requires depth <= MAX_CALL_DEPTH && n <= |children|
    ensures WalkBody(p, children[..n], depth, s).cut <= WalkBody(p, children, depth, s).cut
    decreases |children|
  {
    if n == |children| {
      assert children[..n] == children;
    } else {
      var m := |children| - 1;
      assert children[..m][..n] == children[..n];
      PrefixCuts(p, children[..m], n, depth, s);
      ChildExplores(p, children[m], depth, WalkBody(p, children[..m], depth, s));
    }
  }

  /** A walk down a straightened chain comes to refuse the function one call too far. */
  lemma {:induction false} ChainIsCut(q: Program, c: seq<Fun>, i: nat, s: State)
    requires CallsFirst(q, c) && NoDuplicates(c) && |c| == MAX_CALL_DEPTH + 2 && i < |c|
    requires forall j :: i <= j < |c| ==> c[j] !in s.seen
    ensures c[MAX_CALL_DEPTH + 1] in Walk(q, c[i], i, s).cut
    decreases |c| - i
  {
    if i <= MAX_CALL_DEPTH {
      var body := Body(q, c[i]);
      assert CallsNext(q, c, i);
      var s1 := s.(seen := s.seen + {c[i]});
      var s2 := s1.(codes := s1.codes + body[0].codes);
      ChainIsCut(q, c, i + 1, s2);
      assert body[..1][..0] == [] && body[..1][0] == body[0];
      assert WalkBody(q, body[..1], i, s1) == WalkChild(q, body[0], i, WalkBody(q, [], i, s1));
      PrefixCuts(q, body, 1, i, s1);
    }
  }

  lemma PrefixSimple(p: Program, root: Fun, c: seq<Fun>, n: nat)
    requires SimpleChain(p, root, c) && 0 < n <= |c|
    ensures SimpleChain(p, root, c[..n])
  {
    forall i | 0 < i < n ensures Callee(Body(p, c[..n][i - 1]), c[..n][i]) {
      assert Callee(Body(p, c[i - 1]), c[i]);
    }
  }

  /** The graph below a handler is shallow exactly when no walk over it refuses a function for its
      depth, in whatever order the bodies make their calls. */
  lemma ShallowIffNeverCut(p: Program, f: Fun)
    ensures Shallow(p, f) <==> forall q :: Reordered(p, q) ==> Walk(q, f, 0, START).cut == {}
  {
    if Shallow(p, f) {
      forall q | Reordered(p, q) ensures Walk(q, f, 0, START).cut == {} {
        ReorderedShallow(p, q, f);
        ShallowIsComplete(q, f);
      }
    } else {
      var c :| SimpleChain(p, f, c) && |c| > MAX_CALL_DEPTH + 1;
      var d := c[..MAX_CALL_DEPTH + 2];
      PrefixSimple(p, f, c, MAX_CALL_DEPTH + 2);
      var q := Straighten(p, d);
      ChainIsCut(q, d, 0, START);
      assert Reordered(p, q) && Walk(q, f, 0, START).cut != {};
    }
  }

  lemma ReorderedDeepOnes(p: Program, q: Program, f: Fun)
    requires Reordered(p, q) && DeepOnesCalled(p, f)
    ensures DeepOnesCalled(q, f)
  {
    forall c | SimpleChain(q, f, c) && |c| == MAX_CALL_DEPTH + 2 ensures Callee(Body(q, f), c[MAX_CALL_DEPTH + 1]) {
      forall i | 0 < i < |c| ensures Callee(Body(p, c[i - 1]), c[i]) {
        SameCallees(Body(q, c[i - 1]), Body(p, c[i - 1]), c[i]);
      }
      assert SimpleChain(p, f, c);
      SameCallees(Body(p, f), Body(q, f), c[MAX_CALL_DEPTH + 1]);
    }
  }

  /** Such a graph, which may have longer chains than a shallow one, is scanned completely as well, in
      whatever order its bodies make their calls. */
  lemma DeepOnesCalledIsComplete(p: Program, q: Program, f: Fun)
    requires DeepOnesCalled(p, f) && Reordered(p, q)
    ensures var t := Walk(q, f, 0, START);
            && (forall g :: Reachable(q, f, g) <==> g in t.seen)
            && (forall c :: c in t.codes <==> exists g :: Reachable(q, f, g) && HasCode(Body(q, g), c))
  {
    var t := Walk(q, f, 0, START);
    ReorderedDeepOnes(p, q, f);
    assert START.seen + {f} == {f};
    BodyCutsDeep(q, f, Body(q, f), START.(seen := {f}), [f]);
    forall g | g in t.cut ensures g in t.seen {
      BodyVisits(q, Body(q, f), 0, START.(seen := {f}), g);
    }
    CompleteIffCutsSeen(q, f);
    forall c ensures c in t.codes <==> exists g :: Reachable(q, f, g) && HasCode(Body(q, g), c) {
      CompleteCodes(q, f, c);
    }
  }

  // ---- what a scan can miss -----------------------------------------------------------------

  lemma OneCall(p: Program, f: Fun, g: Fun, depth: nat, s: State)
    requires depth <= MAX_CALL_DEPTH && f !in s.seen && Body(p, f) == [Call({}, Some(g))]
    ensures Walk(p, f, depth, s) == Walk(p, g, depth + 1, s.(seen := s.seen + {f}))
  {
    var s1 := s.(seen := s.seen + {f});
    var body := Body(p, f);
    assert body[|body| - 1] == Call({}, Some(g)) && body[..|body| - 1] == [];
    assert s1.codes + {} == s1.codes;
    assert WalkBody(p, body, depth, s1) == WalkChild(p, Call({}, Some(g)), depth, WalkBody(p, [], depth, s1));
    assert WalkChild(p, Call({}, Some(g)), depth, s1) == Walk(p, g, depth + 1, s1);
  }

  /** A handler that calls the first function of a chain one longer than the limit, and after it the
      last but one directly; no body but the last has codes. */
  ghost predicate Shortcut(p: Program, names: seq<Fun>) {
    && |names| == MAX_CALL_DEPTH + 2 && NoDuplicates(names)
    && Body(p, names[0]) == [Call({}, Some(names[1])), Call({}, Some(names[MAX_CALL_DEPTH]))]
    && (forall i :: 1 <= i <= MAX_CALL_DEPTH ==> Body(p, names[i]) == [Call({}, Some(names[i + 1]))])
  }

  function Firsts(names: seq<Fun>, n: nat): set<Fun>
    requires n <= |names|
  {
    set i | 0 <= i < n :: names[i]
  }

  lemma {:induction false} LongWay(p: Program, names: seq<Fun>, i: nat)
    requires Shortcut(p, names) && 1 <= i <= MAX_CALL_DEPTH + 1
    ensures Walk(p, names[i], i, State(Firsts(names, i), {}, {})) ==
            State(Firsts(names, MAX_CALL_DEPTH + 1), {}, {names[MAX_CALL_DEPTH + 1]})
    decreases MAX_CALL_DEPTH + 1 - i
  {
    assert names[i] !in Firsts(names, i);
    if i <= MAX_CALL_DEPTH {
      LongWay(p, names, i + 1);
      assert Firsts(names, i) + {names[i]} == Firsts(names, i + 1);
      OneCall(p, names[i], names[i + 1], i, State(Firsts(names, i), {}, {}));
    }
  }

  /** The last function is two calls away and yet neither visited nor are its codes reported: it is
      refused on the long way to its caller, and its caller is not entered again on the short way. */
  lemma NearbyCodesMissed(p: Program, names: seq<Fun>)
    requires Shortcut(p, names)
    ensures var last := names[MAX_CALL_DEPTH + 1];
            var t := Walk(p, names[0], 0, START);
            && Reaches(p, names[0], last, 2)
            && last in t.cut && last !in t.seen
            && forall c :: HasCode(Body(p, last), c) ==> c !in t.codes
  {
    var last := names[MAX_CALL_DEPTH + 1];
    var caller := names[MAX_CALL_DEPTH];
    Single(Call({}, Some(last)));
    assert Reaches(p, last, last, 0);
    assert Reaches(p, caller, last, 1);
    var body := Body(p, names[0]);
    assert body[1] == Call({}, Some(caller));
    assert Callee(body, caller);
    LongWay(p, names, 1);
    ShortWay(p, names);
  }

  lemma ShortWay(p: Program, names: seq<Fun>)
    requires Shortcut(p, names)
    requires Walk(p, names[1], 1, State(Firsts(names, 1), {}, {})) ==
             State(Firsts(names, MAX_CALL_DEPTH + 1), {}, {names[MAX_CALL_DEPTH + 1]})
    ensures Walk(p, names[0], 0, START) == State(Firsts(names, MAX_CALL_DEPTH + 1), {}, {names[MAX_CALL_DEPTH + 1]})
  {
    var body := Body(p, names[0]);
    var s := State(Firsts(names, 1), {}, {});
    var t := State(Firsts(names, MAX_CALL_DEPTH + 1), {}, {names[MAX_CALL_DEPTH + 1]});
    assert START.seen + {names[0]} == Firsts(names, 1);
    assert names[MAX_CALL_DEPTH] in t.seen;
    assert body[..1] == [body[0]] && body[..1][..0] == [];
    assert s.codes + {} == s.codes && t.codes + {} == t.codes;
    assert WalkChild(p, body[0], 0, s) == t;
    assert WalkBody(p, body[..1], 0, s) == WalkChild(p, body[0], 0, WalkBody(p, [], 0, s));
    assert WalkChild(p, body[1], 0, t) == t;
  }

  /** Functions told apart by the length of their names. */
  function Numbered(n: nat): Fun {
    ("app.m", seq(n, _ => 'f'))
  }

  function ChainBody(n: nat): seq<Child> {
    if n == 0 then [Call({}, Some(Numbered(1))), Call({}, Some(Numbered(MAX_CALL_DEPTH)))]
    else if n <= MAX_CALL_DEPTH then [Call({}, Some(Numbered(n + 1)))]
    else [Raise({409})]
  }

  function NumberOf(f: Fun): nat { |f.1| }

  function ChainProgram(): Program {
    map f | f in (set n | 0 <= n <= MAX_CALL_DEPTH + 1 :: Numbered(n)) :: ChainBody(NumberOf(f))
  }

  /** There is such a program, with a 409 that is missed. */
  lemma ShortcutExists()
    ensures var p, names := ChainProgram(), seq(MAX_CALL_DEPTH + 2, n requires 0 <= n => Numbered(n));
            && Shortcut(p, names)
            && HasCode(Body(p, names[MAX_CALL_DEPTH + 1]), 409)
            && Reaches(p, names[0], names[MAX_CALL_DEPTH + 1], 2)
            && 409 !in Walk(p, names[0], 0, START).codes
  {
    var p, names := ChainProgram(), seq(MAX_CALL_DEPTH + 2, n requires 0 <= n => Numbered(n));
    forall n | 0 <= n <= MAX_CALL_DEPTH + 1 ensures Body(p, Numbered(n)) == ChainBody(n) {
      assert NumberOf(Numbered(n)) == n;
      assert Numbered(n) in p;
    }
    forall i, j | 0 <= i < j < |names| ensures names[i] != names[j] {
      assert NumberOf(names[i]) == i && NumberOf(names[j]) == j;
    }
    assert ChainBody(MAX_CALL_DEPTH + 1)[0].codes == {409};
    NearbyCodesMissed(p, names);
  }
}
