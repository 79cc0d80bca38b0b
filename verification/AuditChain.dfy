/** The per-tenant audit hash chain of app/services/audit.py. The digest is a parameter: nothing is
    assumed of it except where a lemma says so. */
module AuditChain {
  import opened Prelude
  import opened States

  datatype Source = SYNC | CALLBACK | RECONCILE

  datatype Action = OrderAction(status: OrderStatus) | OtherAction(name: string)

  datatype Entity = OrderEntity(biz: string) | OtherEntity(name: string)

  datatype Payload =
    | NoPayload
    | SubmittedPayload(businessAction: string, amount: string)
    | FinalizedPayload(via: Source, upgradedFrom: Option<OrderStatus>)
    | OtherPayload(text: string)

  datatype Content = Content(tenant: string, actor: string, action: Action, entity: Entity, payload: Payload)

  /** What is digested: the content of a row and the previous digest. */
  datatype Canonical = Canonical(content: Content, prev: string)

  datatype Row = Row(content: Content, prevHash: string, rowHash: string)

  /** SHA-256 of the canonical text, and the 64 zeros that stand before the first row. */
  datatype Digest = Digest(apply: Canonical -> string, genesis: string)

  /** A hexadecimal SHA-256 has 64 characters; the code relies on its not being empty. */
  ghost predicate WellSized(h: Digest) {
    |h.genesis| == 64 && forall c :: |h.apply(c)| == 64
  }

  function Tail(h: Digest, log: seq<Row>): string {
    if log == [] then h.genesis else log[|log| - 1].rowHash
  }

  /** The digest before row `i`. */
  function PrevAt(h: Digest, log: seq<Row>, i: nat): string
    requires i <= |log|
  {
    if i == 0 then h.genesis else log[i - 1].rowHash
  }

  function Link(h: Digest, c: Content, prev: string): Row {
    Row(c, prev, h.apply(Canonical(c, prev)))
  }

  predicate Linked(h: Digest, log: seq<Row>, i: nat)
    requires i < |log|
  {
    log[i] == Link(h, log[i].content, PrevAt(h, log, i))
  }

  /** Every row is digested from its content and the digest before it, starting at GENESIS. */
  ghost predicate ValidChain(h: Digest, log: seq<Row>) {
    forall i :: 0 <= i < |log| ==> Linked(h, log, i)
  }

  /** The two tables as one tenant sees them; `head` is absent until the first append. */
  datatype TenantAudit = TenantAudit(log: seq<Row>, head: Option<string>)

  /** `hist_tail or GENESIS`: an empty digest would count as missing. */
  function Seed(h: Digest, log: seq<Row>): string {
    if log == [] || log[|log| - 1].rowHash == "" then h.genesis else log[|log| - 1].rowHash
  }

  function Prev(h: Digest, a: TenantAudit): string {
    if a.head.Some? then a.head.value else Seed(h, a.log)
  }

  /** `write_audit`: read or seed the head, append, move the head. */
  function Append(h: Digest, a: TenantAudit, c: Content): TenantAudit {
    var row := Link(h, c, Prev(h, a));
    TenantAudit(a.log + [row], Some(row.rowHash))
  }

  /** The chain is valid and a head, if there is one, points at its end. */
  ghost predicate Consistent(h: Digest, a: TenantAudit) {
    ValidChain(h, a.log) && (a.head.Some? ==> a.head.value == Tail(h, a.log))
  }

  /** Appending keeps the chain valid and anchored, whether the head existed or was seeded from
      the rows already there. */
  lemma AppendKeepsChain(h: Digest, a: TenantAudit, c: Content)
    requires WellSized(h)
    requires Consistent(h, a)
    ensures var a' := Append(h, a, c);
            && Consistent(h, a')
            && a'.head == Some(Tail(h, a'.log))
            && a'.log == a.log + [Link(h, c, Tail(h, a.log))]
  {
    if a.log != [] {
      LastDigest(h, a.log);
    }
    var log' := Append(h, a, c).log;
    forall i | 0 <= i < |log'| ensures Linked(h, log', i) {
      if i < |a.log| {
        assert Linked(h, a.log, i);
      }
    }
  }

  // ---- tamper evidence ----------------------------------------------------------------------

  /** Two different inputs with one digest, both taken from the given rows. */
  ghost predicate Collision(h: Digest, x: seq<Row>, y: seq<Row>) {
    exists i, j :: 0 <= i < |x| && 0 <= j < |y| &&
      Input(x[i]) != Input(y[j]) && h.apply(Input(x[i])) == h.apply(Input(y[j]))
  }

  /** A row that digests to GENESIS. */
  ghost predicate HitsGenesis(h: Digest, x: seq<Row>) {
    exists i :: 0 <= i < |x| && h.apply(Input(x[i])) == h.genesis
  }

  function Input(r: Row): Canonical {
    Canonical(r.content, r.prevHash)
  }

  /** Whoever shows two different valid logs under one head has found a collision or a preimage of
      GENESIS; no assumption on the digest is made. */
  lemma {:induction false} HeadDeterminesLog(h: Digest, x: seq<Row>, y: seq<Row>)
    requires ValidChain(h, x) && ValidChain(h, y)
    requires Tail(h, x) == Tail(h, y)
    ensures x == y || Collision(h, x, y) || HitsGenesis(h, x) || HitsGenesis(h, y)
    decreases |x| + |y|
  {
    if x == [] || y == [] {
      if x != [] { LastDigest(h, x); }
      if y != [] { LastDigest(h, y); }
    } else {
      LastDigest(h, x);
      LastDigest(h, y);
      var m, n := |x| - 1, |y| - 1;
      if Input(x[m]) == Input(y[n]) {
        HeadDeterminesLog(h, x[..m], y[..n]);
        if x[..m] == y[..n] {
          assert x[m] == y[n];
          assert x == x[..m] + [x[m]] && y == y[..n] + [y[n]];
        } else {
          WitnessExtends(h, x, y, m, n);
        }
      }
    }
  }

  lemma WitnessExtends(h: Digest, x: seq<Row>, y: seq<Row>, m: nat, n: nat)
    requires m <= |x| && n <= |y|
    ensures Collision(h, x[..m], y[..n]) ==> Collision(h, x, y)
    ensures HitsGenesis(h, x[..m]) ==> HitsGenesis(h, x)
    ensures HitsGenesis(h, y[..n]) ==> HitsGenesis(h, y)
  {
    assert forall i :: 0 <= i < m ==> x[..m][i] == x[i];
    assert forall j :: 0 <= j < n ==> y[..n][j] == y[j];
    if Collision(h, x[..m], y[..n]) {
      var i, j :| 0 <= i < m && 0 <= j < n &&
        Input(x[..m][i]) != Input(y[..n][j]) && h.apply(Input(x[..m][i])) == h.apply(Input(y[..n][j]));
      assert Input(x[i]) != Input(y[j]) && h.apply(Input(x[i])) == h.apply(Input(y[j]));
    }
  }

  lemma LastDigest(h: Digest, x: seq<Row>)
    requires ValidChain(h, x)
    requires x != []
    ensures Tail(h, x) == h.apply(Input(x[|x| - 1]))
    ensures x[|x| - 1].prevHash == Tail(h, x[..|x| - 1])
    ensures ValidChain(h, x[..|x| - 1])
    ensures x[|x| - 1] == Link(h, x[|x| - 1].content, Tail(h, x[..|x| - 1]))
  {
    var n := |x| - 1;
    assert Linked(h, x, n);
    forall i | 0 <= i < n ensures Linked(h, x[..n], i) {
      assert Linked(h, x, i);
    }
  }

  ghost predicate Injective(h: Digest) {
    && (forall c, d :: h.apply(c) == h.apply(d) ==> c == d)
    && (forall c :: h.apply(c) != h.genesis)
  }

  /** Under an injective digest the head hash pins down every row before it. */
  lemma TamperEvidence(h: Digest, x: TenantAudit, y: TenantAudit)
    requires Injective(h)
    requires Consistent(h, x) && Consistent(h, y)
    requires x.head.Some? && x.head == y.head
    ensures x.log == y.log
  {
    HeadDeterminesLog(h, x.log, y.log);
  }

  /** Under an injective digest no two rows of a valid log share a digest, so the unique key on
      (tenant, row_hash) never rejects an append. */
  lemma {:induction false} DigestsDistinct(h: Digest, x: seq<Row>, i: nat, j: nat)
    requires Injective(h)
    requires ValidChain(h, x)
    requires i < j < |x|
    ensures x[i].rowHash != x[j].rowHash
  {
    assert Linked(h, x, i) && Linked(h, x, j) && Linked(h, x, j - 1);
    if x[i].rowHash == x[j].rowHash && i > 0 {
      DigestsDistinct(h, x, i - 1, j - 1);
    }
  }

  // ---- the log as a history -----------------------------------------------------------------

  predicate IsOrderRow(r: Row, biz: string) {
    r.content.entity == OrderEntity(biz) && r.content.action.OrderAction?
  }

  /** The statuses the ORDER_* rows of one order name, in chain order. */
  function LoggedStatuses(log: seq<Row>, biz: string): seq<OrderStatus> {
    if log == [] then []
    else
      var last := log[|log| - 1];
      LoggedStatuses(log[..|log| - 1], biz) +
      (if IsOrderRow(last, biz) then [last.content.action.status] else [])
  }

  lemma LoggedAppend(log: seq<Row>, r: Row, biz: string)
    ensures LoggedStatuses(log + [r], biz) ==
            LoggedStatuses(log, biz) + (if IsOrderRow(r, biz) then [r.content.action.status] else [])
  {
    assert (log + [r])[..|log|] == log;
  }
}
