/** The outbox rows of app/services/outbox.py and the automaton one row runs through. */
module Outbox {
  import opened Prelude
  import opened States
  import opened AuditChain

  /** `terminal_event`: what is forwarded about an order. */
  datatype TerminalEvent = TerminalEvent(biz: string, action: string, status: OrderStatus, via: Source)

  /** RETRY is the status stored as FAILED: to be sent again after a back-off. */
  datatype SendStatus = PENDING | SENDING | SENT | RETRY | DEAD

  datatype OutRow = OutRow(
    tenant: string,
    target: string,
    payload: TerminalEvent,
    dedup: string,
    trace: string,
    status: SendStatus,
    attempts: nat,
    nextRetryAt: Option<int>,
    lastError: Option<string>,
    lockedAt: Option<int>,
    token: Option<nat>)

  const LIFECYCLE := "lifecycle"

  function DedupKey(tenant: string, biz: string, s: OrderStatus): string {
    "fwd-" + tenant + "-" + biz + "-" + StatusName(s)
  }

  /** For one tenant the key tells both the order and the status: the status name is what follows
      the last '-'. */
  lemma DedupKeyInjective(tenant: string, b1: string, s1: OrderStatus, b2: string, s2: OrderStatus)
    requires DedupKey(tenant, b1, s1) == DedupKey(tenant, b2, s2)
    ensures b1 == b2 && s1 == s2
  {
    var stem := "fwd-" + tenant + "-";
    var x, y := StatusName(s1), StatusName(s2);
    var k := DedupKey(tenant, b1, s1);
    assert k == stem + b1 + "-" + x && k == stem + b2 + "-" + y;
    StatusNamesDistinct(s1, s2);
    StatusNamesDistinct(s2, s1);
    assert k[|k| - |x| - 1] == '-' && k[|k| - |x|..] == x;
    assert k[|k| - |y| - 1] == '-' && k[|k| - |y|..] == y;
    assert |b1| == |b2|;
    assert b1 == k[|stem|..|stem| + |b1|] == b2;
  }

  predicate HasKey(r: OutRow, tenant: string, target: string, dedup: string) {
    r.tenant == tenant && r.target == target && r.dedup == dedup
  }

  predicate Enqueued(rows: seq<OutRow>, tenant: string, target: string, dedup: string) {
    exists i :: 0 <= i < |rows| && HasKey(rows[i], tenant, target, dedup)
  }

  function FreshRow(tenant: string, target: string, payload: TerminalEvent, dedup: string, trace: string): OutRow {
    OutRow(tenant, target, payload, dedup, trace, PENDING, 0, None, None, None, None)
  }

  /** `enqueue_forward`: insert unless the unique key is taken. */
  function Enqueue(rows: seq<OutRow>, tenant: string, target: string, payload: TerminalEvent,
                   dedup: string, trace: string): seq<OutRow>
  {
    if Enqueued(rows, tenant, target, dedup) then rows
    else rows + [FreshRow(tenant, target, payload, dedup, trace)]
  }

  // ---- the transactions of a dispatcher -----------------------------------------------------

  datatype Policy = Policy(maxAttempts: nat, backoffBase: nat)

  function Pow2(n: nat): nat {
    if n == 0 then 1 else 2 * Pow2(n - 1)
  }

  predicate Due(r: OutRow, now: int) {
    r.status in {PENDING, RETRY} && (r.nextRetryAt.Some? ==> r.nextRetryAt.value <= now)
  }

  function ClaimRow(r: OutRow, clock: int, token: nat): OutRow {
    r.(status := SENDING, lockedAt := Some(clock), token := Some(token))
  }

  predicate Stale(r: OutRow, now: int, timeout: int) {
    r.status == SENDING && r.lockedAt.Some? && r.lockedAt.value < now - timeout
  }

  function ReclaimRow(r: OutRow): OutRow {
    r.(status := RETRY, lastError := Some("reclaimed_stale_sending"), token := None)
  }

  function ReclaimRows(rows: seq<OutRow>, now: int, timeout: int): seq<OutRow> {
    seq(|rows|, i requires 0 <= i < |rows| => if Stale(rows[i], now, timeout) then ReclaimRow(rows[i]) else rows[i])
  }

  predicate OwnedBy(r: OutRow, token: nat) {
    r.status == SENDING && r.token == Some(token)
  }

  /** The values `_finalize_after_send` writes; `attemptsBefore` was read in an earlier transaction. */
  function WriteBack(r: OutRow, attemptsBefore: nat, ok: bool, error: Option<string>, p: Policy, clock: int): OutRow {
    var n := attemptsBefore + 1;
    var r' := r.(attempts := n, lockedAt := None, token := None);
    if ok then r'.(status := SENT)
    else if n >= p.maxAttempts then r'.(status := DEAD, lastError := error)
    else r'.(status := RETRY, lastError := error, nextRetryAt := Some(clock + p.backoffBase * Pow2(n - 1)))
  }

  function ReplayRow(r: OutRow): OutRow {
    r.(status := PENDING, attempts := 0, nextRetryAt := None)
  }

  // ---- one row's history --------------------------------------------------------------------

  /** How a post ends: no URL for the target, the HTTP status of an answer, or an exception. */
  datatype PostOutcome = NoUrl | Answered(code: int) | Raised(name: string)

  /** A write-back is recorded with what its post was answered. */
  datatype RowEvent = Claimed(token: nat) | WroteBack(token: nat, answer: PostOutcome) | Reclaimed | Replayed

  /** What the history of a row says about it. */
  datatype Cell = Cell(status: SendStatus, attempts: nat, token: Option<nat>)

  function CellOf(r: OutRow): Cell {
    Cell(r.status, r.attempts, r.token)
  }

  /** One legal event; None when the event cannot happen in this cell. */
  function CellStep(c: Cell, e: RowEvent, max: nat): Option<Cell> {
    match e
    case Claimed(t) =>
      if c.status in {PENDING, RETRY} then Some(Cell(SENDING, c.attempts, Some(t))) else None
    case WroteBack(t, a) =>
      if c.status != SENDING || c.token != Some(t) then None
      else Some(Cell(if a.Answered? && a.code < 300 then SENT else if c.attempts + 1 >= max then DEAD else RETRY, c.attempts + 1, None))
    case Reclaimed =>
      if c.status == SENDING then Some(Cell(RETRY, c.attempts, None)) else None
    case Replayed =>
      if c.status == DEAD then Some(Cell(PENDING, 0, None)) else None
  }

  /** The automaton run over a whole history. */
  function CellAfter(h: seq<RowEvent>, max: nat): Option<Cell> {
    if h == [] then Some(Cell(PENDING, 0, None))
    else
      var c := CellAfter(h[..|h| - 1], max);
      if c.None? then None else CellStep(c.value, h[|h| - 1], max)
  }

  lemma CellAfterAppend(h: seq<RowEvent>, e: RowEvent, max: nat)
    ensures CellAfter(h + [e], max) ==
            (if CellAfter(h, max).None? then None else CellStep(CellAfter(h, max).value, e, max))
  {
    assert (h + [e])[..|h|] == h;
  }

  function Claims(h: seq<RowEvent>): nat {
    if h == [] then 0 else Claims(h[..|h| - 1]) + (if h[|h| - 1].Claimed? then 1 else 0)
  }

  function WriteBacks(h: seq<RowEvent>): nat {
    if h == [] then 0 else WriteBacks(h[..|h| - 1]) + (if h[|h| - 1].WroteBack? then 1 else 0)
  }

  function Reclaims(h: seq<RowEvent>): nat {
    if h == [] then 0 else Reclaims(h[..|h| - 1]) + (if h[|h| - 1].Reclaimed? then 1 else 0)
  }

  /** The events after the last replay. */
  function SinceReplay(h: seq<RowEvent>): seq<RowEvent> {
    if h == [] || h[|h| - 1].Replayed? then [] else SinceReplay(h[..|h| - 1]) + [h[|h| - 1]]
  }

  lemma CountsAppend(h: seq<RowEvent>, e: RowEvent)
    ensures Claims(h + [e]) == Claims(h) + (if e.Claimed? then 1 else 0)
    ensures WriteBacks(h + [e]) == WriteBacks(h) + (if e.WroteBack? then 1 else 0)
    ensures Reclaims(h + [e]) == Reclaims(h) + (if e.Reclaimed? then 1 else 0)
  {
    assert (h + [e])[..|h|] == h;
  }

  /** Every claim is accounted for: it was written back, reclaimed, or is still out. */
  lemma {:induction false} ClaimAccounting(h: seq<RowEvent>, max: nat)
    requires CellAfter(h, max).Some?
    ensures Claims(h) == WriteBacks(h) + Reclaims(h) + (if CellAfter(h, max).value.status == SENDING then 1 else 0)
  {
    if h != [] {
      ClaimAccounting(h[..|h| - 1], max);
    }
  }

  /** `attempts` counts the write-backs since the last replay, so none is lost or doubled. */
  lemma {:induction false} AttemptsCountWriteBacks(h: seq<RowEvent>, max: nat)
    requires CellAfter(h, max).Some?
    ensures CellAfter(h, max).value.attempts == WriteBacks(SinceReplay(h))
  {
    if h != [] {
      var h0, e := h[..|h| - 1], h[|h| - 1];
      AttemptsCountWriteBacks(h0, max);
      if !e.Replayed? {
        CountsAppend(SinceReplay(h0), e);
      }
    }
  }

  predicate WithinBudget(c: Cell, max: nat) {
    match c.status
    case PENDING => c.attempts < max
    case RETRY => c.attempts < max
    case SENDING => c.attempts < max
    case DEAD => c.attempts == max
    case SENT => 1 <= c.attempts <= max
  }

  lemma {:induction false} AttemptsBudget(h: seq<RowEvent>, max: nat)
    requires max >= 1
    requires CellAfter(h, max).Some?
    ensures WithinBudget(CellAfter(h, max).value, max)
  {
    if h != [] {
      AttemptsBudget(h[..|h| - 1], max);
    }
  }

  /** The row was claimed at most `max` times since its last replay, plus once per reclaim. */
  lemma {:induction false} ClaimBudget(h: seq<RowEvent>, max: nat)
    requires max >= 1
    requires CellAfter(h, max).Some?
    ensures Claims(SinceReplay(h)) <= max + Reclaims(SinceReplay(h))
  {
    AttemptsBudget(h, max);
    AttemptsCountWriteBacks(h, max);
    SinceReplayAccounting(h, max);
  }

  lemma SinceReplayAppend(h: seq<RowEvent>, e: RowEvent)
    ensures SinceReplay(h + [e]) == if e.Replayed? then [] else SinceReplay(h) + [e]
  {
    assert (h + [e])[..|h|] == h;
  }

  lemma NothingCounts()
    ensures Claims([]) == 0 && WriteBacks([]) == 0 && Reclaims([]) == 0 && SinceReplay([]) == []
  {
  }

  /** One event keeps the balance of claims against write-backs, reclaims and the one that is out. */
  lemma StepBalance(c: Cell, e: RowEvent, max: nat)
    requires CellStep(c, e, max).Some?
    ensures var c' := CellStep(c, e, max).value;
            if e.Replayed? then c'.status != SENDING
            else
              (if e.Claimed? then 1 else 0) + (if c.status == SENDING then 1 else 0) ==
              (if e.WroteBack? then 1 else 0) + (if e.Reclaimed? then 1 else 0) + (if c'.status == SENDING then 1 else 0)
  {
  }

  lemma {:induction false} SinceReplayAccounting(h: seq<RowEvent>, max: nat)
    requires CellAfter(h, max).Some?
    ensures var g := SinceReplay(h);
            Claims(g) == WriteBacks(g) + Reclaims(g) + (if CellAfter(h, max).value.status == SENDING then 1 else 0)
  {
    NothingCounts();
    if h != [] {
      var h0, e := h[..|h| - 1], h[|h| - 1];
      assert h == h0 + [e];
      CellAfterAppend(h0, e, max);
      SinceReplayAppend(h0, e);
      hide CellAfter, CellStep, SinceReplay, Claims, WriteBacks, Reclaims;
      SinceReplayAccounting(h0, max);
      StepBalance(CellAfter(h0, max).value, e, max);
      CountsAppend(SinceReplay(h0), e);
    }
  }

  lemma {:induction false} SendingMeansJustClaimed(h: seq<RowEvent>, max: nat)
    requires CellAfter(h, max).Some?
    ensures var c := CellAfter(h, max).value;
            && (c.status == SENDING <==> c.token.Some?)
            && (c.status == SENDING <==> h != [] && h[|h| - 1].Claimed?)
            && (c.status == SENDING ==> c.token == Some(h[|h| - 1].token))
  {
    if h != [] {
      SendingMeansJustClaimed(h[..|h| - 1], max);
    }
  }

  /** Prefixes of a legal history are legal. */
  lemma {:induction false} PrefixLegal(h: seq<RowEvent>, i: nat, max: nat)
    requires CellAfter(h, max).Some?
    requires i <= |h|
    ensures CellAfter(h[..i], max).Some?
    decreases |h|
  {
    if i == |h| {
      assert h[..i] == h;
    } else {
      assert h[..|h| - 1][..i] == h[..i];
      PrefixLegal(h[..|h| - 1], i, max);
    }
  }

  /** A write-back always directly follows the claim whose token it carries: nothing, and in
      particular no reclaim, came between. */
  lemma WriteBackFollowsItsClaim(h: seq<RowEvent>, i: nat, max: nat)
    requires CellAfter(h, max).Some?
    requires i < |h| && h[i].WroteBack?
    ensures i > 0 && h[i - 1] == Claimed(h[i].token)
  {
    PrefixLegal(h, i + 1, max);
    assert h[..i + 1][..i] == h[..i];
    PrefixLegal(h, i, max);
    SendingMeansJustClaimed(h[..i], max);
  }

  /** SENT is final, and only a replay leaves DEAD. */
  lemma DeliveredIsFinal(h: seq<RowEvent>, i: nat, max: nat)
    requires CellAfter(h, max).Some?
    requires i < |h|
    ensures CellAfter(h[..i], max).Some?
    ensures CellAfter(h[..i], max).value.status != SENT
    ensures CellAfter(h[..i], max).value.status == DEAD ==> h[i] == Replayed
  {
    PrefixLegal(h, i + 1, max);
    assert h[..i + 1][..i] == h[..i];
  }

  /** A row is SENT exactly when the last thing that happened to it is a write-back answered below 300. */
  lemma SentEndsWithSuccess(h: seq<RowEvent>, max: nat)
    requires CellAfter(h, max).Some?
    ensures CellAfter(h, max).value.status == SENT <==>
            h != [] && h[|h| - 1].WroteBack? && h[|h| - 1].answer.Answered? && h[|h| - 1].answer.code < 300
  {
    if h != [] {
      hide CellAfter;
      CellAfterAppend(h[..|h| - 1], h[|h| - 1], max);
      assert h == h[..|h| - 1] + [h[|h| - 1]];
    }
  }

  /** After any other answer, and after none, it is to be sent again or, its attempts used up, DEAD. */
  lemma OtherAnswersRetryOrDie(h: seq<RowEvent>, i: nat, max: nat)
    requires CellAfter(h, max).Some?
    requires i < |h| && h[i].WroteBack? && !(h[i].answer.Answered? && h[i].answer.code < 300)
    ensures CellAfter(h[..i + 1], max).Some?
    ensures var c := CellAfter(h[..i + 1], max).value; c.status == if c.attempts >= max then DEAD else RETRY
  {
    PrefixLegal(h, i + 1, max);
    assert h[..i + 1][..i] == h[..i];
  }
}
